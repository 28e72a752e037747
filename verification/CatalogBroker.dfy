/** Creating and updating a broker with its catalog, each in one transaction
    (storage/interceptors/broker_create_catalog_interceptor.go, storage/interceptors/broker_update_catalog_interceptor.go). */
module CatalogBroker {
  import opened CatalogTypes
  import opened CatalogUpdate
  import opened CatalogPlans

  datatype Db = Db(offerings: Table, plans: Table, next: ID) {
    ghost predicate Valid() {
      && Unique(offerings) && Unique(plans)
      && (forall k | k in offerings :: k < next)
      && (forall k | k in plans :: k < next && plans[k].parent in offerings)
      && (forall k | k in plans && plans[k].catalogID.Generated? :: plans[k].catalogID.id < next)
    }
  }

  ghost function DbOf(store: CatalogStore): Db
    reads store
  {
    Db(store.offerings, store.plans, store.next)
  }

  /** The ids of the broker's offerings. */
  function OwnIds(offerings: Table, brokerID: ID): set<ID> {
    set k | k in offerings && offerings[k].parent == brokerID
  }

  /** The services are what is stored for the broker: offerings and plans were replaced by them, each plan is below the
      stored offering of its service, and everything that was stored under the same key keeps its id. */
  ghost predicate CatalogStored(db: Db, db': Db, brokerID: ID, services: seq<Service>, ids: seq<ID>) {
    && db'.Valid() && db'.next >= db.next
    && Replaced(db.offerings, db'.offerings, OfferingRows(services), {brokerID}, db.next)
    && IdsOf(db'.offerings, services, ids)
    && Replaced(db.plans, db'.plans, WantedPlans(services, ids), OwnIds(db.offerings, brokerID) + (set o | o in ids), db.next)
  }

  /** A catalog that may be stored: of this broker, with distinct catalog ids, and generated ids already drawn. */
  ghost predicate WellFormed(services: seq<Service>, brokerID: ID, next: ID) {
    && AllOf(services, brokerID) && DistinctServices(services)
    && (forall i | 0 <= i < |services| :: DistinctPlans(services[i].plans))
    && (forall i, j | 0 <= i < |services| && 0 <= j < |services[i].plans| && services[i].plans[j].catalogID.Generated? ::
          services[i].plans[j].catalogID.id < next)
  }

  // ----- from the offerings to the plans -----

  /** Each service's offering has the id that was stored under its key, or a new one. */
  lemma ServiceHome(before: Table, after: Table, services: seq<Service>, ids: seq<ID>, brokerID: ID, first: ID, i: nat)
    requires Replaced(before, after, OfferingRows(services), {brokerID}, first) && IdsOf(after, services, ids)
    requires AllOf(services, brokerID) && i < |services|
    ensures var key := (brokerID, services[i].offering.catalogID);
            if HasKey(before, key) then ids[i] in before && KeyOf(before[ids[i]]) == key else ids[i] >= first
  {
    var w := services[i].offering;
    assert w in OfferingRows(services);
    assert Stored(before, after, w, first);
    var k :| StoredAs(before, after, w, first, k);
    assert KeyOf(after[k]) == KeyOf(after[ids[i]]);
    assert k == ids[i];
  }

  /** The broker's offerings that survived are among those ids. */
  lemma SurvivorHasId(before: Table, after: Table, services: seq<Service>, ids: seq<ID>, brokerID: ID, first: ID, o: ID)
    requires Replaced(before, after, OfferingRows(services), {brokerID}, first) && IdsOf(after, services, ids)
    requires o in before && o in after && before[o].parent == brokerID
    ensures o in ids
  {
    assert after[o].parent == brokerID;
    assert Wants(OfferingRows(services), KeyOf(after[o]));
    var w :| w in OfferingRows(services) && KeyOf(w) == KeyOf(after[o]);
    var i :| 0 <= i < |services| && services[i].offering == w;
    assert KeyOf(after[ids[i]]) == KeyOf(after[o]);
  }

  ghost function StageOf(db: Db, offerings: Table, brokerID: ID): Stage {
    Stage(db.offerings, db.plans, brokerID, Below(db.plans, offerings), db.next)
  }

  lemma HomesHold(db: Db, offerings: Table, services: seq<Service>, ids: seq<ID>, brokerID: ID)
    requires db.Valid() && WellFormed(services, brokerID, db.next)
    requires Replaced(db.offerings, offerings, OfferingRows(services), {brokerID}, db.next) && IdsOf(offerings, services, ids)
    ensures StageOf(db, offerings, brokerID).Valid() && Homes(StageOf(db, offerings, brokerID), services, ids)
  {
    var g := StageOf(db, offerings, brokerID);
    forall i | 0 <= i < |ids| ensures HomeId(g, ids[i], services[i].offering.catalogID) {
      ServiceHome(db.offerings, offerings, services, ids, brokerID, db.next, i);
    }
    forall i, j | 0 <= i < j < |ids| ensures ids[i] != ids[j] {
      assert KeyOf(offerings[ids[i]]) != KeyOf(offerings[ids[j]]);
    }
    forall k | k in g.start && g.start[k].parent in g.offerings && g.offerings[g.start[k].parent].parent == brokerID
      ensures g.start[k].parent in ids
    {
      SurvivorHasId(db.offerings, offerings, services, ids, brokerID, db.next, g.start[k].parent);
    }
  }

  // ----- deleting an offering and its plans is part of replacing the plans -----

  lemma SameKeys(db: Db, offerings: Table, key: Key)
    requires db.Valid() && key.0 in offerings
    ensures HasKey(Below(db.plans, offerings), key) <==> HasKey(db.plans, key)
  {
    var start := Below(db.plans, offerings);
    if HasKey(db.plans, key) {
      var k :| k in db.plans && KeyOf(db.plans[k]) == key;
      assert k in start;
    }
  }

  lemma StoredSince(db: Db, offerings: Table, after: Table, w: Row, next: ID)
    requires db.Valid() && w.parent in offerings && next >= db.next && Stored(Below(db.plans, offerings), after, w, next)
    ensures Stored(db.plans, after, w, db.next)
  {
    SameKeys(db, offerings, KeyOf(w));
    var k :| StoredAs(Below(db.plans, offerings), after, w, next, k);
    assert StoredAs(db.plans, after, w, db.next, k);
  }

  /** Nothing is stored below an offering of the broker that is gone. */
  lemma NoStray(db: Db, offerings: Table, after: Table, services: seq<Service>, ids: seq<ID>, brokerID: ID, next: ID, k: ID)
    requires Replaced(db.offerings, offerings, OfferingRows(services), {brokerID}, db.next) && IdsOf(offerings, services, ids)
    requires Replaced(Below(db.plans, offerings), after, WantedPlans(services, ids), (set o | o in ids), next)
    requires k in after && after[k].parent in OwnIds(db.offerings, brokerID) + (set o | o in ids)
    ensures after[k].parent in ids
  {
    if after[k].parent !in ids {
      assert k in Below(db.plans, offerings) && after[k].parent in offerings;
      SurvivorHasId(db.offerings, offerings, services, ids, brokerID, db.next, after[k].parent);
    }
  }

  lemma CascadeReplaced(db: Db, offerings: Table, after: Table, services: seq<Service>, ids: seq<ID>, brokerID: ID, next: ID)
    requires db.Valid() && WellFormed(services, brokerID, db.next) && next >= db.next
    requires Replaced(db.offerings, offerings, OfferingRows(services), {brokerID}, db.next) && IdsOf(offerings, services, ids)
    requires Replaced(Below(db.plans, offerings), after, WantedPlans(services, ids), (set o | o in ids), next)
    ensures Replaced(db.plans, after, WantedPlans(services, ids), OwnIds(db.offerings, brokerID) + (set o | o in ids), db.next)
  {
    var start, wanted := Below(db.plans, offerings), WantedPlans(services, ids);
    var parents := OwnIds(db.offerings, brokerID) + (set o | o in ids);
    forall w | w in wanted ensures Stored(db.plans, after, w, db.next) {
      WantedIsValid(services, ids, brokerID, db.next, w);
      StoredSince(db, offerings, after, w, next);
    }
    forall k | k in after && after[k].parent in parents ensures Wants(wanted, KeyOf(after[k])) {
      NoStray(db, offerings, after, services, ids, brokerID, next, k);
    }
    forall k | k in db.plans && db.plans[k].parent !in parents ensures k in after && after[k] == db.plans[k] {
      assert k in start;
    }
  }

  /** A wanted plan is below one of the ids, and its generated id, if it has one, was drawn before. */
  lemma WantedIsValid(services: seq<Service>, ids: seq<ID>, brokerID: ID, next: ID, w: Row)
    requires |ids| == |services| && WellFormed(services, brokerID, next) && w in WantedPlans(services, ids)
    ensures w.parent in ids && (w.catalogID.Generated? ==> w.catalogID.id < next)
  {
    var i :| 0 <= i < |services| && w in RowsOf(services[i], ids[i]);
    var j :| 0 <= j < |services[i].plans| && RowsOf(services[i], ids[i])[j] == w;
    assert services[i].plans[j].catalogID == w.catalogID;
  }

  lemma StoredPlanIsValid(db: Db, offerings: Table, plans: Table, services: seq<Service>, ids: seq<ID>, brokerID: ID, k: ID)
    requires db.Valid() && WellFormed(services, brokerID, db.next)
    requires Replaced(db.offerings, offerings, OfferingRows(services), {brokerID}, db.next) && IdsOf(offerings, services, ids)
    requires Replaced(db.plans, plans, WantedPlans(services, ids), OwnIds(db.offerings, brokerID) + (set o | o in ids), db.next)
    requires k in plans
    ensures plans[k].parent in offerings && (plans[k].catalogID.Generated? ==> plans[k].catalogID.id < db.next)
  {
    if plans[k].parent in OwnIds(db.offerings, brokerID) + (set o | o in ids) {
      var w :| w in WantedPlans(services, ids) && KeyOf(w) == KeyOf(plans[k]);
      WantedIsValid(services, ids, brokerID, db.next, w);
    } else {
      assert plans[k] == db.plans[k];
      assert db.offerings[plans[k].parent].parent != brokerID;
    }
  }

  lemma StoredIsValid(db: Db, offerings: Table, plans: Table, next: ID, services: seq<Service>, ids: seq<ID>, brokerID: ID)
    requires db.Valid() && WellFormed(services, brokerID, db.next) && next >= db.next
    requires Replaced(db.offerings, offerings, OfferingRows(services), {brokerID}, db.next) && IdsOf(offerings, services, ids)
    requires Replaced(db.plans, plans, WantedPlans(services, ids), OwnIds(db.offerings, brokerID) + (set o | o in ids), db.next)
    requires (forall k | k in offerings :: k < next) && (forall k | k in plans :: k < next)
    ensures Db(offerings, plans, next).Valid()
  {
    forall k | k in plans
      ensures plans[k].parent in offerings && (plans[k].catalogID.Generated? ==> plans[k].catalogID.id < next)
    {
      StoredPlanIsValid(db, offerings, plans, services, ids, brokerID, k);
    }
  }

  // ----- updating -----

  /** The stored plans of a broker, by the catalog id of their offering. */
  method ExistingPlans(store: CatalogStore, brokerID: ID, ghost g: Stage) returns (existing: map<CatalogID, seq<ID>>)
    requires g.Valid() && g.offerings == store.offerings && g.loaded == store.plans && g.brokerID == brokerID
    ensures Remaining(g, {}, existing)
  {
    existing := map[];
    var todo := set k | k in store.plans && store.offerings[store.plans[k].parent].parent == brokerID;
    ghost var all := todo;
    while todo != {}
      invariant todo <= all
      invariant forall c, k :: (c in existing && k in existing[c]) <==> k in all && k !in todo && g.Home(k) == c
      decreases todo
    {
      var k :| k in todo;
      var c := store.offerings[store.plans[k].parent].catalogID;
      existing := existing[c := (if c in existing then existing[c] else []) + [k]];
      todo := todo - {k};
    }
    forall c, k ensures Open(g, {}, c, k) <==> c in existing && k in existing[c] {
      assert (c in existing && k in existing[c]) <==> k in all && g.Home(k) == c;
      assert k in g.loaded ==> !Wants({}, KeyOf(g.loaded[k])) && g.loaded[k].parent in g.offerings;
    }
  }

  /** A stored plan that has shared instances is in the new catalog, and can no longer be shared there. */
  ghost predicate LosesSharing(db: Db, brokerID: ID, services: seq<Service>, shared: set<ID>) {
    exists k: ID, i: nat, j: nat :: Loses(db, brokerID, services, shared, k, i, j)
  }

  ghost predicate Loses(db: Db, brokerID: ID, services: seq<Service>, shared: set<ID>, k: ID, i: nat, j: nat) {
    && k in db.plans && k in shared && db.plans[k].parent in db.offerings && i < |services| && j < |services[i].plans|
    && KeyOf(db.offerings[db.plans[k].parent]) == (brokerID, services[i].offering.catalogID)
    && services[i].plans[j].catalogID == db.plans[k].catalogID && !services[i].plans[j].content.shareable
  }

  lemma ConflictLoses(db: Db, offerings: Table, services: seq<Service>, ids: seq<ID>, brokerID: ID, shared: set<ID>, w: Row)
    requires db.Valid() && WellFormed(services, brokerID, db.next) && |ids| == |services|
    requires Homes(StageOf(db, offerings, brokerID), services, ids) && StageOf(db, offerings, brokerID).Valid()
    requires w in WantedPlans(services, ids) && Conflict(Below(db.plans, offerings), w, shared)
    ensures LosesSharing(db, brokerID, services, shared)
  {
    var start := Below(db.plans, offerings);
    var k :| k in start && k in shared && KeyOf(start[k]) == KeyOf(w);
    var i :| 0 <= i < |services| && w in RowsOf(services[i], ids[i]);
    var j :| 0 <= j < |services[i].plans| && RowsOf(services[i], ids[i])[j] == w;
    OwnPlans(StageOf(db, offerings, brokerID), ids[i], services[i].offering.catalogID, k);
    assert Loses(db, brokerID, services, shared, k, i, j);
  }

  lemma LosesConflict(db: Db, offerings: Table, services: seq<Service>, ids: seq<ID>, brokerID: ID, shared: set<ID>)
    requires db.Valid() && |ids| == |services| && LosesSharing(db, brokerID, services, shared)
    requires Homes(StageOf(db, offerings, brokerID), services, ids)
    ensures exists w | w in WantedPlans(services, ids) :: Conflict(Below(db.plans, offerings), w, shared)
  {
    var g := StageOf(db, offerings, brokerID);
    var k: ID, i: nat, j: nat :| Loses(db, brokerID, services, shared, k, i, j);
    var c := services[i].offering.catalogID;
    assert HasKey(g.offerings, (brokerID, c));
    assert HomeId(g, ids[i], c) && ids[i] == db.plans[k].parent;
    var w := RowsOf(services[i], ids[i])[j];
    assert i in Indices(|services|) && w in RowsOf(services[i], ids[i]);
    assert w in WantedPlans(services, ids);
    assert k in g.start && KeyOf(g.start[k]) == KeyOf(w);
    assert Conflict(g.start, w, shared);
  }

  lemma SameRemaining(g: Stage, h: Stage, existing: map<CatalogID, seq<ID>>)
    requires Remaining(g, {}, existing) && g.offerings == h.offerings && g.loaded == h.loaded && g.brokerID == h.brokerID
    ensures Remaining(h, {}, existing)
  {
    forall c, k ensures Open(h, {}, c, k) <==> c in existing && k in existing[c] {
      assert Open(g, {}, c, k) <==> Open(h, {}, c, k);
    }
  }

  /** OnTxUpdate. */
  method StoreCatalog(store: CatalogStore, brokerID: ID, services: seq<Service>, shared: set<ID>)
    returns (ok: bool, ghost ids: seq<ID>)
    requires DbOf(store).Valid() && WellFormed(services, brokerID, store.next)
    modifies store
    ensures ok <==> !LosesSharing(old(DbOf(store)), brokerID, services, shared)
    ensures ok ==> CatalogStored(old(DbOf(store)), DbOf(store), brokerID, services, ids)
  {
    ghost var db, first := DbOf(store), Stage(store.offerings, store.plans, brokerID, map[], store.next);
    var loaded := store.plans;
    var existing := ExistingPlans(store, brokerID, first);
    var stored := store.ResyncOfferings(brokerID, services);
    ids := stored;
    ghost var offerings, next, g := store.offerings, store.next, StageOf(db, store.offerings, brokerID);
    HomesHold(db, offerings, services, ids, brokerID);
    SameRemaining(first, g, existing);
    ok := ResyncPlans(store, services, stored, existing, shared, loaded, g);
    if ok {
      UpdateSucceeded(db, offerings, store.plans, services, ids, brokerID, shared, next, store.next);
    } else {
      UpdateFailed(db, offerings, services, ids, brokerID, shared);
    }
  }

  /** The new catalog has no place for a stored plan of the broker: not its service, or not the plan in it. */
  ghost predicate Dropped(db: Db, brokerID: ID, services: seq<Service>, k: ID) {
    && k in db.plans && db.plans[k].parent in db.offerings && db.offerings[db.plans[k].parent].parent == brokerID
    && forall i: nat, j: nat | i < |services| && j < |services[i].plans| ::
         !(services[i].offering.catalogID == db.offerings[db.plans[k].parent].catalogID
           && services[i].plans[j].catalogID == db.plans[k].catalogID)
  }

  /** A plan that still has instances would have to go; the reference from the instances to it forbids that. */
  ghost predicate DropsUsed(db: Db, brokerID: ID, services: seq<Service>, used: set<ID>) {
    exists k :: k in used && Dropped(db, brokerID, services, k)
  }

  lemma OthersStay(db: Db, db': Db, brokerID: ID, services: seq<Service>, ids: seq<ID>, k: ID)
    requires db.Valid() && WellFormed(services, brokerID, db.next) && CatalogStored(db, db', brokerID, services, ids)
    requires k in db.plans && db.offerings[db.plans[k].parent].parent != brokerID
    ensures k in db'.plans
  {
    var o := db.plans[k].parent;
    assert o in db'.offerings && db'.offerings[o] == db.offerings[o];
    forall i | 0 <= i < |ids| ensures ids[i] != o {
      assert KeyOf(db'.offerings[ids[i]]) == KeyOf(services[i].offering);
    }
  }

  lemma WantedStays(db: Db, db': Db, brokerID: ID, services: seq<Service>, ids: seq<ID>, k: ID, i: nat, j: nat)
    requires db.Valid() && WellFormed(services, brokerID, db.next) && CatalogStored(db, db', brokerID, services, ids)
    requires k in db.plans && i < |services| && j < |services[i].plans|
    requires KeyOf(db.offerings[db.plans[k].parent]) == (brokerID, services[i].offering.catalogID)
    requires services[i].plans[j].catalogID == db.plans[k].catalogID
    ensures k in db'.plans
  {
    ServiceHome(db.offerings, db'.offerings, services, ids, brokerID, db.next, i);
    assert HasKey(db.offerings, (brokerID, services[i].offering.catalogID));
    assert ids[i] == db.plans[k].parent;
    var w := RowsOf(services[i], ids[i])[j];
    assert i in Indices(|services|) && w in RowsOf(services[i], ids[i]);
    assert w in WantedPlans(services, ids) && KeyOf(w) == KeyOf(db.plans[k]);
    assert Stored(db.plans, db'.plans, w, db.next);
    var l :| StoredAs(db.plans, db'.plans, w, db.next, l);
    assert HasKey(db.plans, KeyOf(w)) && l == k;
  }

  /** A stored plan of the broker that is still there has the key of a wanted one. */
  lemma StaysKeyed(db: Db, db': Db, brokerID: ID, services: seq<Service>, ids: seq<ID>, k: ID) returns (w: Row)
    requires db.Valid() && CatalogStored(db, db', brokerID, services, ids)
    requires k in db.plans && k in db'.plans && db.offerings[db.plans[k].parent].parent == brokerID
    ensures w in WantedPlans(services, ids) && KeyOf(w) == KeyOf(db.plans[k])
  {
    var wanted := WantedPlans(services, ids);
    assert Wants(wanted, KeyOf(db'.plans[k]));
    w :| w in wanted && KeyOf(w) == KeyOf(db'.plans[k]);
    assert Stored(db.plans, db'.plans, w, db.next);
    var l :| StoredAs(db.plans, db'.plans, w, db.next, l);
    assert l == k;
  }

  /** Where a wanted plan comes from. */
  lemma WantedPlace(services: seq<Service>, ids: seq<ID>, w: Row) returns (i: nat, j: nat)
    requires |ids| == |services| && w in WantedPlans(services, ids)
    ensures i < |services| && j < |services[i].plans| && w.parent == ids[i] && w.catalogID == services[i].plans[j].catalogID
  {
    i :| 0 <= i < |services| && w in RowsOf(services[i], ids[i]);
    j :| 0 <= j < |services[i].plans| && RowsOf(services[i], ids[i])[j] == w;
  }

  lemma StaysWanted(db: Db, db': Db, brokerID: ID, services: seq<Service>, ids: seq<ID>, k: ID)
    requires db.Valid() && WellFormed(services, brokerID, db.next) && CatalogStored(db, db', brokerID, services, ids)
    requires k in db.plans && k in db'.plans && db.offerings[db.plans[k].parent].parent == brokerID
    ensures !Dropped(db, brokerID, services, k)
  {
    var w := StaysKeyed(db, db', brokerID, services, ids, k);
    var i, j := WantedPlace(services, ids, w);
    ServiceHome(db.offerings, db'.offerings, services, ids, brokerID, db.next, i);
    assert services[i].offering.catalogID == db.offerings[ids[i]].catalogID;
    assert services[i].plans[j].catalogID == db.plans[k].catalogID;
  }

  /** The stored plans that are gone afterwards are those the new catalog has no place for. */
  lemma GoneIff(db: Db, db': Db, brokerID: ID, services: seq<Service>, ids: seq<ID>, k: ID)
    requires db.Valid() && WellFormed(services, brokerID, db.next) && CatalogStored(db, db', brokerID, services, ids)
    requires k in db.plans
    ensures k !in db'.plans <==> Dropped(db, brokerID, services, k)
  {
    if db.offerings[db.plans[k].parent].parent != brokerID {
      OthersStay(db, db', brokerID, services, ids, k);
    } else if k in db'.plans {
      StaysWanted(db, db', brokerID, services, ids, k);
    } else if !Dropped(db, brokerID, services, k) {
      var i: nat, j: nat :| i < |services| && j < |services[i].plans|
        && services[i].offering.catalogID == db.offerings[db.plans[k].parent].catalogID
        && services[i].plans[j].catalogID == db.plans[k].catalogID;
      WantedStays(db, db', brokerID, services, ids, k, i, j);
    }
  }

  /** The transaction of a catalog update: it stores the catalog, or fails and leaves everything as it was. It fails
      exactly when a plan with shared instances would lose sharing, or a plan with instances would have to go. */
  method UpdateCatalog(store: CatalogStore, brokerID: ID, services: seq<Service>, shared: set<ID>, used: set<ID>)
    returns (ok: bool, ghost ids: seq<ID>)
    requires DbOf(store).Valid() && WellFormed(services, brokerID, store.next)
    modifies store
    ensures ok <==> !LosesSharing(old(DbOf(store)), brokerID, services, shared) && !DropsUsed(old(DbOf(store)), brokerID, services, used)
    ensures ok ==> CatalogStored(old(DbOf(store)), DbOf(store), brokerID, services, ids)
    ensures !ok ==> DbOf(store) == old(DbOf(store))
  {
    var offerings, plans, next := store.offerings, store.plans, store.next;
    ghost var db := DbOf(store);
    ok, ids := StoreCatalog(store, brokerID, services, shared);
    if ok {
      forall k | k in plans ensures k !in store.plans <==> Dropped(db, brokerID, services, k) {
        GoneIff(db, DbOf(store), brokerID, services, ids, k);
      }
      ok := forall k | k in used :: k in plans ==> k in store.plans;
    }
    if !ok {
      store.offerings, store.plans, store.next := offerings, plans, next;
    }
  }

  lemma UpdateFailed(db: Db, offerings: Table, services: seq<Service>, ids: seq<ID>, brokerID: ID, shared: set<ID>)
    requires db.Valid() && WellFormed(services, brokerID, db.next) && |ids| == |services|
    requires Homes(StageOf(db, offerings, brokerID), services, ids) && StageOf(db, offerings, brokerID).Valid()
    requires exists w | w in WantedPlans(services, ids) :: Conflict(Below(db.plans, offerings), w, shared)
    ensures LosesSharing(db, brokerID, services, shared)
  {
    var w :| w in WantedPlans(services, ids) && Conflict(Below(db.plans, offerings), w, shared);
    ConflictLoses(db, offerings, services, ids, brokerID, shared, w);
  }

  lemma UpdateSucceeded(db: Db, offerings: Table, plans: Table, services: seq<Service>, ids: seq<ID>, brokerID: ID,
                        shared: set<ID>, next1: ID, next2: ID)
    requires db.Valid() && WellFormed(services, brokerID, db.next) && db.next <= next1 <= next2
    requires Replaced(db.offerings, offerings, OfferingRows(services), {brokerID}, db.next) && IdsOf(offerings, services, ids)
    requires Homes(StageOf(db, offerings, brokerID), services, ids)
    requires Replaced(Below(db.plans, offerings), plans, WantedPlans(services, ids), (set o | o in ids), next1)
    requires (forall k | k in offerings :: k < next1) && (forall k | k in plans :: k < next2)
    requires forall w | w in WantedPlans(services, ids) :: !Conflict(Below(db.plans, offerings), w, shared)
    ensures CatalogStored(db, Db(offerings, plans, next2), brokerID, services, ids)
    ensures !LosesSharing(db, brokerID, services, shared)
  {
    CascadeReplaced(db, offerings, plans, services, ids, brokerID, next1);
    StoredIsValid(db, offerings, plans, next2, services, ids, brokerID);
    if LosesSharing(db, brokerID, services, shared) {
      LosesConflict(db, offerings, services, ids, brokerID, shared);
    }
  }

  // ----- creating -----

  lemma FreshReplaced(before: Table, created: Table, wanted: set<Row>, parents: set<ID>, next: ID)
    requires Unique(before) && Distinct(wanted) && Creates(created, wanted, next)
    requires forall k | k in before :: k < next && before[k].parent !in parents
    requires forall w | w in wanted :: w.parent in parents
    ensures Replaced(before, before + created, wanted, parents, next)
  {
    assert Missing(before, wanted) == wanted;
    assert Leftover(before, wanted, parents) == {};
    assert Updated(before, before, wanted);
    StepsReplace(before, before, created, wanted, parents, next);
    assert (before - Leftover(before, wanted, parents)) + created == before + created;
  }

  lemma CreatesBoth(a: Table, b: Table, x: set<Row>, y: set<Row>, first: ID, next: ID)
    requires Creates(a, x, first) && Creates(b, y, next) && first <= next && (forall k | k in a :: k < next) && x !! y
    ensures Creates(a + b, x + y, first)
  {
    forall w | w in x + y ensures exists k | k in a + b :: (a + b)[k] == w {
      if w in x {
        var k :| k in a && a[k] == w;
        assert (a + b)[k] == w;
      } else {
        var k :| k in b && b[k] == w;
        assert (a + b)[k] == w;
      }
    }
  }

  lemma RowsNoRepeats(plans: seq<Row>, service: Service, offeringID: ID)
    requires plans == RowsOf(service, offeringID) && DistinctPlans(service.plans)
    ensures NoRepeats(plans) && forall w | w in plans :: w.parent == offeringID
  {
  }

  lemma WantedOneMore(services: seq<Service>, ids: seq<ID>, s: Service, id: ID)
    requires |ids| == |services|
    ensures WantedPlans(services + [s], ids + [id]) == WantedPlans(services, ids) + AsSet(RowsOf(s, id))
  {
    var n := |services|;
    var all, one := WantedPlans(services + [s], ids + [id]), AsSet(RowsOf(s, id));
    forall w | w in WantedPlans(services, ids) ensures w in all {
      var i :| i in Indices(n) && 0 <= i < n && w in RowsOf(services[i], ids[i]);
      assert i in Indices(n + 1) && (services + [s])[i] == services[i] && (ids + [id])[i] == ids[i];
    }
    forall w | w in one ensures w in all {
      assert n in Indices(n + 1) && (services + [s])[n] == s && (ids + [id])[n] == id;
    }
    forall w | w in all ensures w in WantedPlans(services, ids) + one {
      var i :| i in Indices(n + 1) && 0 <= i < n + 1 && w in RowsOf((services + [s])[i], (ids + [id])[i]);
      if i < n {
        assert i in Indices(n) && w in RowsOf(services[i], ids[i]);
      }
    }
  }

  lemma WantedParents(services: seq<Service>, ids: seq<ID>, w: Row)
    requires |ids| == |services| && w in WantedPlans(services, ids)
    ensures w.parent in ids
  {
    var i :| 0 <= i < |services| && w in RowsOf(services[i], ids[i]);
    var j :| 0 <= j < |services[i].plans| && RowsOf(services[i], ids[i])[j] == w;
  }

  /** What has been created after some services. */
  datatype Built = Built(offerings: Table, plans: Table, ids: seq<ID>)

  ghost predicate Building(b: Built, services: seq<Service>, first: ID, next: ID) {
    && first <= next && IdsInOrder(b, services, next)
    && (forall k | k in b.offerings :: k < next) && (forall k | k in b.plans :: k < next)
    && Creates(b.offerings, OfferingRows(services), first)
    && Creates(b.plans, WantedPlans(services, b.ids), first)
  }

  lemma BuiltOffering(offerings: Table, services: seq<Service>, s: Service, first: ID, id: ID)
    requires Creates(offerings, OfferingRows(services), first) && s.offering !in OfferingRows(services)
    requires first <= id && id !in offerings
    ensures Creates(offerings[id := s.offering], OfferingRows(services + [s]), first)
  {
    var services' := services + [s];
    CreateOne(offerings, OfferingRows(services), first, id, s.offering);
    OneMoreRow(services', |services|);
    assert services'[..|services|] == services && services'[..|services| + 1] == services';
  }

  lemma BuiltPlans(plans: Table, services: seq<Service>, ids: seq<ID>, s: Service, first: ID, id: ID, made: Table)
    requires |ids| == |services| && Creates(plans, WantedPlans(services, ids), first) && first <= id && id !in ids
    requires (forall k | k in plans :: k < id) && Creates(made, AsSet(RowsOf(s, id)), id + 1)
    ensures Creates(plans + made, WantedPlans(services + [s], ids + [id]), first)
  {
    WantedOneMore(services, ids, s, id);
    forall w | w in WantedPlans(services, ids) ensures w !in AsSet(RowsOf(s, id)) {
      WantedParents(services, ids, w);
    }
    CreatesBoth(plans, made, WantedPlans(services, ids), AsSet(RowsOf(s, id)), first, id + 1);
  }

  /** The ids are those of the offerings, in increasing order. */
  ghost predicate IdsInOrder(b: Built, services: seq<Service>, next: ID) {
    && |b.ids| == |services|
    && (forall i | 0 <= i < |services| ::
          b.ids[i] < next && b.ids[i] in b.offerings && b.offerings[b.ids[i]] == services[i].offering)
    && (forall i, j | 0 <= i < j < |b.ids| :: b.ids[i] < b.ids[j])
  }

  lemma BuiltIds(b: Built, services: seq<Service>, s: Service, id: ID, made: Table, next: ID)
    requires IdsInOrder(b, services, id) && id < next && id !in b.offerings
    ensures IdsInOrder(Built(b.offerings[id := s.offering], b.plans + made, b.ids + [id]), services + [s], next)
  {
  }

  lemma BuiltOneMore(b: Built, services: seq<Service>, s: Service, first: ID, id: ID, made: Table, next: ID)
    requires Building(b, services, first, id) && s.offering !in OfferingRows(services)
    requires Creates(made, AsSet(RowsOf(s, id)), id + 1) && (forall k | k in made :: k < next) && id < next
    ensures Building(Built(b.offerings[id := s.offering], b.plans + made, b.ids + [id]), services + [s], first, next)
  {
    BuiltIds(b, services, s, id, made, next);
    BuiltOffering(b.offerings, services, s, first, id);
    BuiltPlans(b.plans, services, b.ids, s, first, id, made);
  }

  /** One service of a new broker: its offering, then its plans. */
  method CreateService(store: CatalogStore, s: Service, ghost db: Db, ghost b: Built, ghost services: seq<Service>)
    returns (ghost b': Built)
    requires Building(b, services, db.next, store.next) && DistinctPlans(s.plans) && s.offering !in OfferingRows(services)
    requires store.offerings == db.offerings + b.offerings && store.plans == db.plans + b.plans
    modifies store
    ensures Building(b', services + [s], db.next, store.next)
    ensures store.offerings == db.offerings + b'.offerings && store.plans == db.plans + b'.plans
  {
    var id := store.next;
    store.offerings := store.offerings[id := s.offering];
    store.next := store.next + 1;
    RowsNoRepeats(RowsOf(s, id), s, id);
    ghost var made := CreatePlans(store, RowsOf(s, id));
    BuiltOneMore(b, services, s, db.next, id, made, store.next);
    Appended(db.offerings, b.offerings, db.plans, b.plans, made, id, s.offering);
    b' := Built(b.offerings[id := s.offering], b.plans + made, b.ids + [id]);
  }

  lemma Appended(a: Table, b: Table, c: Table, d: Table, made: Table, id: ID, r: Row)
    ensures (a + b)[id := r] == a + b[id := r] && c + d + made == c + (d + made)
  {
  }

  /** OnTxCreate of a new broker. */
  method CreateCatalog(store: CatalogStore, brokerID: ID, services: seq<Service>) returns (ghost ids: seq<ID>)
    requires DbOf(store).Valid() && WellFormed(services, brokerID, store.next) && OwnIds(store.offerings, brokerID) == {}
    modifies store
    ensures CatalogStored(old(DbOf(store)), DbOf(store), brokerID, services, ids)
  {
    ghost var db, b := DbOf(store), Built(map[], map[], []);
    BuiltNothing(db.next);
    assert services[..0] == [];
    assert db.offerings + map[] == db.offerings && db.plans + map[] == db.plans;
    for i := 0 to |services|
      invariant Building(b, services[..i], db.next, store.next)
      invariant store.offerings == db.offerings + b.offerings && store.plans == db.plans + b.plans
    {
      NotYet(services, i);
      assert services[..i + 1] == services[..i] + [services[i]];
      b := CreateService(store, services[i], db, b, services[..i]);
    }
    assert services[..|services|] == services;
    ids := b.ids;
    CreatedIsStored(db, b, brokerID, services, store.next);
  }

  lemma BuiltNothing(next: ID)
    ensures Building(Built(map[], map[], []), [], next, next)
  {
  }

  lemma CreatedOfferings(db: Db, b: Built, brokerID: ID, services: seq<Service>, next: ID)
    requires db.Valid() && WellFormed(services, brokerID, db.next) && OwnIds(db.offerings, brokerID) == {}
    requires Building(b, services, db.next, next)
    ensures Replaced(db.offerings, db.offerings + b.offerings, OfferingRows(services), {brokerID}, db.next)
    ensures IdsOf(db.offerings + b.offerings, services, b.ids)
  {
    DistinctRows(services, brokerID);
    assert forall k | k in db.offerings :: k !in OwnIds(db.offerings, brokerID);
    FreshReplaced(db.offerings, b.offerings, OfferingRows(services), {brokerID}, db.next);
  }

  lemma CreatedPlans(db: Db, b: Built, brokerID: ID, services: seq<Service>, next: ID)
    requires db.Valid() && WellFormed(services, brokerID, db.next) && OwnIds(db.offerings, brokerID) == {}
    requires Building(b, services, db.next, next)
    ensures Replaced(db.plans, db.plans + b.plans, WantedPlans(services, b.ids),
                     OwnIds(db.offerings, brokerID) + (set o | o in b.ids), db.next)
  {
    var parents := OwnIds(db.offerings, brokerID) + (set o | o in b.ids);
    WantedFacts(services, b.ids);
    assert forall o | o in b.ids :: o >= db.next;
    FreshReplaced(db.plans, b.plans, WantedPlans(services, b.ids), parents, db.next);
  }

  lemma CreatedBelow(db: Db, b: Built, services: seq<Service>, next: ID)
    requires db.Valid() && Building(b, services, db.next, next)
    ensures db.next <= next && |b.ids| == |services|
    ensures (forall k | k in db.offerings + b.offerings :: k < next) && (forall k | k in db.plans + b.plans :: k < next)
  {
  }

  lemma CreatedIsStored(db: Db, b: Built, brokerID: ID, services: seq<Service>, next: ID)
    requires db.Valid() && WellFormed(services, brokerID, db.next) && OwnIds(db.offerings, brokerID) == {}
    requires Building(b, services, db.next, next)
    ensures CatalogStored(db, Db(db.offerings + b.offerings, db.plans + b.plans, next), brokerID, services, b.ids)
  {
    CreatedOfferings(db, b, brokerID, services, next);
    CreatedPlans(db, b, brokerID, services, next);
    CreatedBelow(db, b, services, next);
    StoredIsValid(db, db.offerings + b.offerings, db.plans + b.plans, next, services, b.ids, brokerID);
  }
}
