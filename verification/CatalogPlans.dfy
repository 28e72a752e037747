/** The plans of a broker's catalog: updated, deleted and created below the resynced offerings
    (storage/interceptors/broker_update_catalog_interceptor.go). */
module CatalogPlans {
  import opened CatalogTypes
  import opened CatalogUpdate
  import opened Wrappers

  /** What the resync of plans starts from: offerings and plans as loaded before anything changed, and the plans that are
      left after offerings were deleted. */
  datatype Stage = Stage(offerings: Table, loaded: Table, brokerID: ID, start: Table, first: ID) {
    ghost predicate Valid() {
      && Unique(offerings) && Unique(loaded)
      && (forall k | k in offerings :: k < first)
      && (forall k | k in loaded :: loaded[k].parent in offerings)
      && (forall k | k in start :: k in loaded && start[k] == loaded[k])
    }

    /** The catalog id of the offering a loaded plan belongs to. */
    function Home(k: ID): CatalogID
      requires k in loaded && loaded[k].parent in offerings
    {
      offerings[loaded[k].parent].catalogID
    }
  }

  /** The offering id for catalog id c: that of the stored offering, whose plans are all still there, or a new one. */
  ghost predicate HomeId(g: Stage, offeringID: ID, c: CatalogID) {
    if HasKey(g.offerings, (g.brokerID, c))
    then offeringID in g.offerings && KeyOf(g.offerings[offeringID]) == (g.brokerID, c)
         && forall k | k in g.loaded && g.loaded[k].parent == offeringID :: k in g.start
    else offeringID >= g.first
  }

  /** The loaded plan k is one of the broker's offering c, and no row in done has its key. */
  ghost predicate Open(g: Stage, done: set<Row>, c: CatalogID, k: ID) {
    && k in g.loaded && g.loaded[k].parent in g.offerings
    && KeyOf(g.offerings[g.loaded[k].parent]) == (g.brokerID, c) && !Wants(done, KeyOf(g.loaded[k]))
  }

  /** The lists hold exactly the plans that are open. */
  ghost predicate Remaining(g: Stage, done: set<Row>, existing: map<CatalogID, seq<ID>>) {
    forall c, k :: Open(g, done, c, k) <==> c in existing && k in existing[c]
  }

  /** The row would take sharing from a stored plan that has shared instances. */
  predicate Conflict(start: Table, w: Row, shared: set<ID>) {
    !w.content.shareable && exists k | k in start :: k in shared && KeyOf(start[k]) == KeyOf(w)
  }

  ghost predicate NoRepeats(rows: seq<Row>) {
    forall i, j | 0 <= i < j < |rows| :: rows[i] != rows[j]
  }

  /** Where the loops over the catalog's plans stand. */
  ghost predicate Planning(g: Stage, plans: Table, done: set<Row>, existing: map<CatalogID, seq<ID>>, toCreate: seq<Row>,
                           shared: set<ID>)
  {
    && Updated(g.start, plans, done) && Remaining(g, done, existing)
    && (forall w :: w in toCreate <==> w in Missing(g.start, done)) && NoRepeats(toCreate)
    && (forall w | w in done :: !Conflict(g.start, w, shared))
  }

  lemma WantsOneMore(done: set<Row>, w: Row, key: Key)
    ensures Wants(done + {w}, key) <==> Wants(done, key) || KeyOf(w) == key
  {
    if Wants(done, key) {
      var v :| v in done && KeyOf(v) == key;
      assert v in done + {w};
    }
    assert w in done + {w};
  }

  /** The loaded plans below the offering are those of catalog id c, and are all still there. */
  lemma OwnPlans(g: Stage, offeringID: ID, c: CatalogID, k: ID)
    requires g.Valid() && HomeId(g, offeringID, c) && k in g.loaded && g.loaded[k].parent == offeringID
    ensures offeringID in g.offerings && KeyOf(g.offerings[offeringID]) == (g.brokerID, c) && k in g.start
  {
    assert offeringID < g.first;
  }

  lemma OpenIsOwn(g: Stage, done: set<Row>, offeringID: ID, c: CatalogID, k: ID)
    requires g.Valid() && HomeId(g, offeringID, c) && Open(g, done, c, k)
    ensures g.loaded[k].parent == offeringID
  {
    assert HasKey(g.offerings, (g.brokerID, c));
  }

  /** What scanning the remaining plans of the offering finds is the stored plan with the key. */
  lemma FoundMeans(g: Stage, done: set<Row>, existing: map<CatalogID, seq<ID>>, w: Row, c: CatalogID, k: ID)
    requires g.Valid() && Remaining(g, done, existing) && HomeId(g, w.parent, c)
    requires c in existing && k in existing[c] && k in g.loaded && g.loaded[k].catalogID == w.catalogID
    ensures k in g.start && KeyOf(g.start[k]) == KeyOf(w)
  {
    assert Open(g, done, c, k);
    assert HasKey(g.offerings, (g.brokerID, c));
  }

  /** When it finds none there is none. */
  lemma NotFoundMeans(g: Stage, done: set<Row>, existing: map<CatalogID, seq<ID>>, w: Row, c: CatalogID)
    requires g.Valid() && Remaining(g, done, existing) && HomeId(g, w.parent, c) && !Wants(done, KeyOf(w))
    requires c in existing ==> forall k | k in existing[c] && k in g.loaded :: g.loaded[k].catalogID != w.catalogID
    ensures !HasKey(g.start, KeyOf(w))
  {
    forall k | k in g.start && g.start[k].parent == w.parent ensures g.start[k].catalogID != w.catalogID {
      OwnPlans(g, w.parent, c, k);
      if !Wants(done, KeyOf(g.loaded[k])) {
        assert Open(g, done, c, k);
      }
    }
  }

  lemma RemainingMatched(g: Stage, done: set<Row>, existing: map<CatalogID, seq<ID>>, w: Row, c: CatalogID, rest: seq<ID>)
    requires g.Valid() && Remaining(g, done, existing) && HomeId(g, w.parent, c) && c in existing
    requires forall k :: k in rest <==> k in existing[c] && k in g.loaded && g.loaded[k].catalogID != w.catalogID
    ensures Remaining(g, done + {w}, existing[c := rest])
  {
    forall d, k ensures Open(g, done + {w}, d, k) <==> d in existing[c := rest] && k in existing[c := rest][d] {
      assert Open(g, done, d, k) <==> d in existing && k in existing[d];
      if k in g.loaded {
        WantsOneMore(done, w, KeyOf(g.loaded[k]));
        if Open(g, done, c, k) {
          OpenIsOwn(g, done, w.parent, c, k);
        }
        if g.loaded[k].parent == w.parent {
          OwnPlans(g, w.parent, c, k);
        }
      }
    }
  }

  lemma RemainingMissed(g: Stage, done: set<Row>, existing: map<CatalogID, seq<ID>>, w: Row, c: CatalogID)
    requires g.Valid() && Remaining(g, done, existing) && HomeId(g, w.parent, c) && !HasKey(g.start, KeyOf(w))
    ensures Remaining(g, done + {w}, existing)
  {
    forall d, k ensures Open(g, done + {w}, d, k) <==> d in existing && k in existing[d] {
      assert Open(g, done, d, k) <==> d in existing && k in existing[d];
      if k in g.loaded {
        WantsOneMore(done, w, KeyOf(g.loaded[k]));
        if g.loaded[k].parent == w.parent {
          OwnPlans(g, w.parent, c, k);
        }
      }
    }
  }

  lemma PlanMissed(g: Stage, plans: Table, done: set<Row>, existing: map<CatalogID, seq<ID>>, toCreate: seq<Row>,
                   shared: set<ID>, w: Row, c: CatalogID)
    requires g.Valid() && Planning(g, plans, done, existing, toCreate, shared) && HomeId(g, w.parent, c)
    requires !Wants(done, KeyOf(w)) && !HasKey(g.start, KeyOf(w))
    ensures Planning(g, plans, done + {w}, existing, toCreate + [w], shared) && !Conflict(g.start, w, shared)
  {
    RemainingMissed(g, done, existing, w, c);
    MissOne(g.start, plans, done, w);
    assert w in done ==> Wants(done, KeyOf(w));
  }

  lemma PlanMatched(g: Stage, plans: Table, done: set<Row>, existing: map<CatalogID, seq<ID>>, toCreate: seq<Row>,
                    shared: set<ID>, w: Row, c: CatalogID, k: ID, rest: seq<ID>)
    requires g.Valid() && Planning(g, plans, done, existing, toCreate, shared) && HomeId(g, w.parent, c)
    requires !Wants(done, KeyOf(w)) && c in existing && k in g.start && KeyOf(g.start[k]) == KeyOf(w)
    requires forall l :: l in rest <==> l in existing[c] && l in g.loaded && g.loaded[l].catalogID != w.catalogID
    ensures Conflict(g.start, w, shared) <==> k in shared && !w.content.shareable
    ensures k in plans && plans[k].createdAt == g.start[k].createdAt
    ensures !Conflict(g.start, w, shared) ==>
              Planning(g, plans[k := w.(createdAt := plans[k].createdAt)], done + {w}, existing[c := rest], toCreate, shared)
  {
    assert Unique(g.start);
    UpdatedKeys(g.start, plans, done);
    RemainingMatched(g, done, existing, w, c, rest);
    UpdateOne(g.start, plans, done, w, k);
  }

  /** One plan of the catalog: write over the stored plan with its catalog id, or take down that it has to be created.
      A stored plan that has shared instances must stay shareable. */
  method UpdatePlan(store: CatalogStore, w: Row, c: CatalogID, existing: map<CatalogID, seq<ID>>, toCreate: seq<Row>,
                    shared: set<ID>, loaded: Table, ghost g: Stage, ghost done: set<Row>)
    returns (ok: bool, existing': map<CatalogID, seq<ID>>, toCreate': seq<Row>)
    requires g.Valid() && g.loaded == loaded && HomeId(g, w.parent, c) && !Wants(done, KeyOf(w))
    requires Planning(g, store.plans, done, existing, toCreate, shared)
    modifies store`plans
    ensures ok <==> !Conflict(g.start, w, shared)
    ensures ok ==> Planning(g, store.plans, done + {w}, existing', toCreate', shared)
  {
    ok, existing', toCreate' := true, existing, toCreate;
    var matched, rest := FindPlan(w, c, existing, loaded, g, done);
    if matched.None? {
      NotFoundMeans(g, done, existing, w, c);
      PlanMissed(g, store.plans, done, existing, toCreate, shared, w, c);
      toCreate' := toCreate + [w];
    } else {
      FoundMeans(g, done, existing, w, c, matched.value);
      PlanMatched(g, store.plans, done, existing, toCreate, shared, w, c, matched.value, rest);
      if matched.value in shared && !w.content.shareable {
        return false, existing, toCreate;
      }
      store.plans := store.plans[matched.value := w.(createdAt := store.plans[matched.value].createdAt)];
      existing' := existing[c := rest];
    }
  }

  /** The loop over the stored plans of the offering: the one with the catalog id, and the others. */
  method FindPlan(w: Row, c: CatalogID, existing: map<CatalogID, seq<ID>>, loaded: Table, ghost g: Stage, ghost done: set<Row>)
    returns (matched: Option<ID>, rest: seq<ID>)
    requires g.loaded == loaded && Remaining(g, done, existing)
    ensures c in existing ==>
              forall k :: k in rest <==> k in existing[c] && k in loaded && loaded[k].catalogID != w.catalogID
    ensures matched.None? && c in existing ==> forall k | k in existing[c] && k in loaded :: loaded[k].catalogID != w.catalogID
    ensures matched.Some? ==> c in existing && matched.value in existing[c] && matched.value in loaded
                              && loaded[matched.value].catalogID == w.catalogID
  {
    matched, rest := None, [];
    if c in existing {
      var list := existing[c];
      forall k | k in list ensures k in loaded {
        assert Open(g, done, c, k);
      }
      for n := 0 to |list|
        invariant matched.None? ==> forall k | k in list[..n] :: loaded[k].catalogID != w.catalogID
        invariant matched.Some? ==> matched.value in list && loaded[matched.value].catalogID == w.catalogID
        invariant forall k :: k in rest <==> k in list[..n] && loaded[k].catalogID != w.catalogID
      {
        assert list[..n + 1] == list[..n] + [list[n]];
        if loaded[list[n]].catalogID == w.catalogID {
          matched := Some(list[n]);
        } else {
          rest := rest + [list[n]];
        }
      }
      assert list[..|list|] == list;
    }
  }

  /** The plans of one service, below its offering. */
  function RowsOf(service: Service, offeringID: ID): seq<Row> {
    seq(|service.plans|, j requires 0 <= j < |service.plans| => service.plans[j].(parent := offeringID))
  }

  function AsSet(rows: seq<Row>): set<Row> {
    set w | w in rows
  }

  ghost predicate DistinctPlans(plans: seq<Row>) {
    forall i, j | 0 <= i < j < |plans| :: plans[i].catalogID != plans[j].catalogID
  }

  /** The loop over the plans of one service. */
  method UpdatePlansOf(store: CatalogStore, rows: seq<Row>, offeringID: ID, c: CatalogID, existing0: map<CatalogID, seq<ID>>,
                       toCreate0: seq<Row>, shared: set<ID>, loaded: Table, ghost g: Stage, ghost done: set<Row>)
    returns (ok: bool, existing: map<CatalogID, seq<ID>>, toCreate: seq<Row>)
    requires g.Valid() && g.loaded == loaded && HomeId(g, offeringID, c) && DistinctPlans(rows)
    requires forall w | w in rows :: w.parent == offeringID && !Wants(done, KeyOf(w))
    requires Planning(g, store.plans, done, existing0, toCreate0, shared)
    modifies store`plans
    ensures ok <==> forall w | w in rows :: !Conflict(g.start, w, shared)
    ensures ok ==> Planning(g, store.plans, done + AsSet(rows), existing, toCreate, shared)
  {
    ok, existing, toCreate := true, existing0, toCreate0;
    assert done + AsSet(rows[..0]) == done;
    for n := 0 to |rows|
      invariant ok && Planning(g, store.plans, done + AsSet(rows[..n]), existing, toCreate, shared)
      invariant forall w | w in rows[..n] :: !Conflict(g.start, w, shared)
    {
      NotYetPlan(rows, n, done);
      assert rows[..n + 1] == rows[..n] + [rows[n]];
      assert done + AsSet(rows[..n + 1]) == done + AsSet(rows[..n]) + {rows[n]};
      ok, existing, toCreate := UpdatePlan(store, rows[n], c, existing, toCreate, shared, loaded, g, done + AsSet(rows[..n]));
      if !ok {
        return;
      }
    }
    assert rows[..|rows|] == rows;
  }

  lemma NotYetPlan(rows: seq<Row>, n: nat, done: set<Row>)
    requires n < |rows| && DistinctPlans(rows) && !Wants(done, KeyOf(rows[n]))
    ensures !Wants(done + AsSet(rows[..n]), KeyOf(rows[n]))
  {
    forall v | v in done + AsSet(rows[..n]) ensures KeyOf(v) != KeyOf(rows[n]) {
      if v in done {
        assert Wants(done, KeyOf(v));
      } else {
        var i :| 0 <= i < n && rows[..n][i] == v;
      }
    }
  }

  function Indices(n: nat): (r: set<nat>)
    ensures forall i :: i in r <==> 0 <= i < n
  {
    if n == 0 then {} else Indices(n - 1) + {n - 1}
  }

  /** The plans of some of the services. */
  ghost function PlanRows(services: seq<Service>, ids: seq<ID>, some: set<nat>): set<Row>
    requires |ids| == |services|
  {
    set i, w | i in some && 0 <= i < |services| && w in RowsOf(services[i], ids[i]) :: w
  }

  /** The services of a catalog with the ids of their offerings, as the resync of offerings leaves them. */
  ghost predicate Homes(g: Stage, services: seq<Service>, ids: seq<ID>) {
    && |ids| == |services|
    && (forall i, j | 0 <= i < j < |ids| :: ids[i] != ids[j])
    && (forall i | 0 <= i < |ids| :: HomeId(g, ids[i], services[i].offering.catalogID) && DistinctPlans(services[i].plans))
    && (forall k | k in g.start && g.start[k].parent in g.offerings && g.offerings[g.start[k].parent].parent == g.brokerID ::
          g.start[k].parent in ids)
  }

  lemma RowsFacts(g: Stage, services: seq<Service>, ids: seq<ID>, some: set<nat>, i: nat)
    requires Homes(g, services, ids) && i < |services| && i !in some
    ensures DistinctPlans(RowsOf(services[i], ids[i]))
    ensures forall w | w in RowsOf(services[i], ids[i]) ::
              w.parent == ids[i] && !Wants(PlanRows(services, ids, some), KeyOf(w))
    ensures PlanRows(services, ids, some + {i}) == PlanRows(services, ids, some) + AsSet(RowsOf(services[i], ids[i]))
  {
  }

  /** The loops over the plans of all services; the order of the services is left open. */
  method UpdatePlans(store: CatalogStore, services: seq<Service>, ids: seq<ID>, existing0: map<CatalogID, seq<ID>>,
                     shared: set<ID>, loaded: Table, ghost g: Stage)
    returns (ok: bool, existing: map<CatalogID, seq<ID>>, toCreate: seq<Row>)
    requires g.Valid() && g.loaded == loaded && store.plans == g.start && Homes(g, services, ids)
    requires Remaining(g, {}, existing0)
    modifies store`plans
    ensures var wanted := PlanRows(services, ids, Indices(|services|));
            && (ok <==> forall w | w in wanted :: !Conflict(g.start, w, shared))
            && (ok ==> Planning(g, store.plans, wanted, existing, toCreate, shared))
  {
    ok, existing, toCreate := true, existing0, [];
    var todo := Indices(|services|);
    ghost var all, done: set<nat> := todo, {};
    UpdatedStart(g.start);
    assert PlanRows(services, ids, done) == {};
    while todo != {}
      invariant todo + done == all && todo !! done
      invariant ok && Planning(g, store.plans, PlanRows(services, ids, done), existing, toCreate, shared)
      decreases todo
    {
      var i :| i in todo;
      RowsFacts(g, services, ids, done, i);
      var rows := RowsOf(services[i], ids[i]);
      ok, existing, toCreate := UpdatePlansOf(store, rows, ids[i], services[i].offering.catalogID, existing, toCreate, shared,
                                              loaded, g, PlanRows(services, ids, done));
      if !ok {
        ghost var w :| w in rows && Conflict(g.start, w, shared);
        assert w in PlanRows(services, ids, all);
        return;
      }
      todo, done := todo - {i}, done + {i};
    }
    assert done == all;
  }

  function AllListed(existing: map<CatalogID, seq<ID>>): set<ID> {
    set c, k | c in existing && k in existing[c] :: k
  }

  /** The loops that delete the plans that are no longer in the catalog; a plan that went with its offering is not found,
      and that is no error. */
  method DeletePlans(store: CatalogStore, existing: map<CatalogID, seq<ID>>)
    modifies store`plans
    ensures store.plans == old(store.plans) - AllListed(existing)
  {
    var todo := existing.Keys;
    ghost var gone: set<ID> := {};
    assert store.plans - gone == store.plans;
    while todo != {}
      invariant todo <= existing.Keys
      invariant gone == (set c, k | c in existing && c !in todo && k in existing[c] :: k)
      invariant store.plans == old(store.plans) - gone
      decreases todo
    {
      var c :| c in todo;
      ghost var before := store.plans;
      for n := 0 to |existing[c]|
        invariant store.plans == before - set k | k in existing[c][..n]
      {
        assert existing[c][..n + 1] == existing[c][..n] + [existing[c][n]];
        store.plans := store.plans - {existing[c][n]};
      }
      assert existing[c][..|existing[c]|] == existing[c];
      gone := gone + set k | k in existing[c];
      todo := todo - {c};
    }
    assert gone == AllListed(existing);
  }

  lemma CreateNext(created: Table, toCreate: seq<Row>, n: nat, first: ID, next: ID)
    requires NoRepeats(toCreate) && n < |toCreate| && Creates(created, AsSet(toCreate[..n]), first) && first <= next
    requires forall k | k in created :: k < next
    ensures Creates(created[next := toCreate[n]], AsSet(toCreate[..n + 1]), first)
  {
    CreateOne(created, AsSet(toCreate[..n]), first, next, toCreate[n]);
    assert toCreate[..n + 1] == toCreate[..n] + [toCreate[n]];
    assert AsSet(toCreate[..n + 1]) == AsSet(toCreate[..n]) + {toCreate[n]};
  }

  /** createPlan for each plan that was missing. */
  method CreatePlans(store: CatalogStore, toCreate: seq<Row>) returns (ghost created: Table)
    requires NoRepeats(toCreate)
    modifies store`plans, store`next
    ensures store.plans == old(store.plans) + created && store.next >= old(store.next)
    ensures Creates(created, AsSet(toCreate), old(store.next)) && forall k | k in created :: k < store.next
  {
    created := map[];
    assert store.plans + created == store.plans;
    for n := 0 to |toCreate|
      invariant store.next >= old(store.next) && store.plans == old(store.plans) + created
      invariant Creates(created, AsSet(toCreate[..n]), old(store.next)) && forall k | k in created :: k < store.next
    {
      CreateNext(created, toCreate, n, old(store.next), store.next);
      store.plans := store.plans[store.next := toCreate[n]];
      created := created[store.next := toCreate[n]];
      store.next := store.next + 1;
    }
    assert toCreate[..|toCreate|] == toCreate;
  }

  /** All plans of the catalog. */
  ghost function WantedPlans(services: seq<Service>, ids: seq<ID>): set<Row>
    requires |ids| == |services|
  {
    PlanRows(services, ids, Indices(|services|))
  }

  lemma WantedFacts(services: seq<Service>, ids: seq<ID>)
    requires |ids| == |services| && forall i, j | 0 <= i < j < |ids| :: ids[i] != ids[j]
    requires forall i | 0 <= i < |services| :: DistinctPlans(services[i].plans)
    ensures Distinct(WantedPlans(services, ids)) && forall w | w in WantedPlans(services, ids) :: w.parent in ids
  {
    forall v, w | v in WantedPlans(services, ids) && w in WantedPlans(services, ids) && KeyOf(v) == KeyOf(w) ensures v == w {
      var i :| 0 <= i < |services| && v in RowsOf(services[i], ids[i]);
      var j :| 0 <= j < |services| && w in RowsOf(services[j], ids[j]);
      assert ids[i] == v.parent == ids[j];
      var m :| 0 <= m < |services[i].plans| && RowsOf(services[i], ids[i])[m] == v;
      var n :| 0 <= n < |services[i].plans| && RowsOf(services[i], ids[i])[n] == w;
    }
  }

  /** The plans still listed at the end are those stored below the broker's offerings that nothing wants. */
  lemma ListedIsLeftover(g: Stage, services: seq<Service>, ids: seq<ID>, existing: map<CatalogID, seq<ID>>, k: ID)
    requires g.Valid() && Homes(g, services, ids) && Remaining(g, WantedPlans(services, ids), existing) && k in g.start
    ensures k in AllListed(existing) <==> k in Leftover(g.start, WantedPlans(services, ids), set o | o in ids)
  {
    var wanted := WantedPlans(services, ids);
    if k in AllListed(existing) {
      var c :| c in existing && k in existing[c];
      assert Open(g, wanted, c, k);
    }
    if k in Leftover(g.start, wanted, set o | o in ids) {
      var i :| 0 <= i < |ids| && ids[i] == g.start[k].parent;
      OwnPlans(g, ids[i], services[i].offering.catalogID, k);
      assert Open(g, wanted, services[i].offering.catalogID, k);
    }
  }

  lemma ListedAreLeftover(g: Stage, services: seq<Service>, ids: seq<ID>, existing: map<CatalogID, seq<ID>>, updated: Table)
    requires g.Valid() && Homes(g, services, ids) && Remaining(g, WantedPlans(services, ids), existing)
    requires updated.Keys == g.start.Keys
    ensures updated - AllListed(existing) == updated - Leftover(g.start, WantedPlans(services, ids), set o | o in ids)
  {
    forall k | k in updated
      ensures k in AllListed(existing) <==> k in Leftover(g.start, WantedPlans(services, ids), set o | o in ids)
    {
      ListedIsLeftover(g, services, ids, existing, k);
    }
  }

  lemma PlansReplaced(g: Stage, services: seq<Service>, ids: seq<ID>, updated: Table, existing: map<CatalogID, seq<ID>>,
                      toCreate: seq<Row>, created: Table, shared: set<ID>, next: ID)
    requires g.Valid() && Homes(g, services, ids) && forall k | k in g.start :: k < next
    requires Planning(g, updated, WantedPlans(services, ids), existing, toCreate, shared)
    requires Creates(created, AsSet(toCreate), next)
    ensures Replaced(g.start, updated - AllListed(existing) + created, WantedPlans(services, ids), (set o | o in ids), next)
    ensures forall k | k in updated :: k < next
  {
    var wanted, parents := WantedPlans(services, ids), (set o | o in ids);
    WantedFacts(services, ids);
    ListedAreLeftover(g, services, ids, existing, updated);
    assert AsSet(toCreate) == Missing(g.start, wanted);
    assert Unique(g.start);
    StepsReplace(g.start, updated, created, wanted, parents, next);
  }

  method FinishPlans(store: CatalogStore, existing: map<CatalogID, seq<ID>>, toCreate: seq<Row>,
                     ghost g: Stage, ghost services: seq<Service>, ghost ids: seq<ID>, ghost shared: set<ID>)
    requires g.Valid() && Homes(g, services, ids) && forall k | k in g.start :: k < store.next
    requires Planning(g, store.plans, WantedPlans(services, ids), existing, toCreate, shared)
    modifies store`plans, store`next
    ensures Replaced(g.start, store.plans, WantedPlans(services, ids), (set o | o in ids), old(store.next))
    ensures store.next >= old(store.next) && forall k | k in store.plans :: k < store.next
  {
    ghost var updated := store.plans;
    DeletePlans(store, existing);
    ghost var created := CreatePlans(store, toCreate);
    PlansReplaced(g, services, ids, updated, existing, toCreate, created, shared, old(store.next));
  }

  /** All of the plans: updated, deleted and created. It fails exactly when a stored plan that has shared instances would
      stop being shareable. */
  method ResyncPlans(store: CatalogStore, services: seq<Service>, ids: seq<ID>, existing0: map<CatalogID, seq<ID>>,
                     shared: set<ID>, loaded: Table, ghost g: Stage)
    returns (ok: bool)
    requires g.Valid() && g.loaded == loaded && store.plans == g.start && Homes(g, services, ids)
    requires Remaining(g, {}, existing0) && forall k | k in g.start :: k < store.next
    modifies store`plans, store`next
    ensures ok <==> forall w | w in WantedPlans(services, ids) :: !Conflict(g.start, w, shared)
    ensures ok ==> Replaced(g.start, store.plans, WantedPlans(services, ids), (set o | o in ids), old(store.next))
    ensures ok ==> store.next >= old(store.next) && forall k | k in store.plans :: k < store.next
  {
    var existing, toCreate;
    ok, existing, toCreate := UpdatePlans(store, services, ids, existing0, shared, loaded, g);
    if ok {
      FinishPlans(store, existing, toCreate, g, services, ids, shared);
    }
  }
}
