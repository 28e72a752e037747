/** A broker's catalog from fetching to storing: the create and update interceptors as a whole
    (storage/interceptors/broker_create_catalog_interceptor.go, storage/interceptors/broker_update_catalog_interceptor.go). */
module Brokers {
  import opened CatalogTypes
  import opened CatalogUpdate
  import opened CatalogPlans
  import opened CatalogFetch
  import opened CatalogBroker
  import opened ReferencePlans

  /** No catalog id occurs twice among the services, or among the plans of one. */
  ghost predicate DistinctIds(fetched: seq<FetchedService>) {
    && (forall i, j | 0 <= i < j < |fetched| :: fetched[i].id != fetched[j].id)
    && (forall i | 0 <= i < |fetched| :: DistinctPlanIds(fetched[i].plans))
  }

  ghost predicate DistinctPlanIds(plans: seq<FetchedPlan>) {
    forall i, j | 0 <= i < j < |plans| :: plans[i].id != plans[j].id
  }

  /** The service has the fetched offering and plans, and a reference plan when some plan can be shared. */
  ghost predicate Shows(f: FetchedService, s: Service, brokerID: ID, now: int) {
    && s.offering == OfferingRow(f, brokerID, now)
    && |s.plans| == |f.plans| + (if CatalogFetch.Shares(f) then 1 else 0)
    && (forall j | 0 <= j < |f.plans| :: s.plans[j] == PlanRow(f.plans[j], now))
    && (CatalogFetch.Shares(f) ==> IsReference(s.plans[|f.plans|]) && s.plans[|f.plans|].catalogID.Generated?
                                   && !s.plans[|f.plans|].content.shareable)
  }

  lemma PreparedLast(f: FetchedService, s: Service, brokerID: ID, now: int, clock: int, first: ID, next: ID)
    requires Acceptable(f) && Prepared(f, s, brokerID, now, clock, first, next)
    ensures ReferenceLast(s) && Shows(f, s, brokerID, now)
    ensures forall j | 0 <= j < |s.plans| && s.plans[j].catalogID.Generated? :: s.plans[j].catalogID.id < next
  {
    forall j | 0 <= j < |f.plans| ensures !IsReference(s.plans[j]) {
      assert f.plans[j] in f.plans && AcceptablePlan(f, f.plans[j]);
    }
  }

  lemma ReusedShows(db: Db, f: FetchedService, s: Service, s': Service, brokerID: ID, now: int, next: ID)
    requires db.Valid() && ReferencesRight(db) && db.next <= next && Acceptable(f) && Shows(f, s, brokerID, now)
    requires forall j | 0 <= j < |s.plans| && s.plans[j].catalogID.Generated? :: s.plans[j].catalogID.id < next
    requires Reused(db.offerings, db.plans, brokerID, s, s')
    ensures Shows(f, s', brokerID, now)
    ensures forall j | 0 <= j < |s'.plans| && s'.plans[j].catalogID.Generated? :: s'.plans[j].catalogID.id < next
  {
    forall j | 0 <= j < |f.plans| ensures !IsReference(s.plans[j]) {
      assert f.plans[j] in f.plans && AcceptablePlan(f, f.plans[j]);
    }
  }

  lemma ShownSuits(db: Db, f: FetchedService, s: Service, s': Service, brokerID: ID, now: int)
    requires db.Valid() && ReferencesRight(db) && Acceptable(f)
    requires Shows(f, s, brokerID, now) && Shows(f, s', brokerID, now) && Reused(db.offerings, db.plans, brokerID, s, s')
    ensures Suits(db, brokerID, s') && (HasShareable(s') <==> CatalogFetch.Shares(f))
  {
    forall j | 0 <= j < |f.plans| ensures !IsReference(s.plans[j]) && !IsReference(s'.plans[j]) {
      assert f.plans[j] in f.plans && AcceptablePlan(f, f.plans[j]);
    }
    if CatalogFetch.Shares(f) {
      var p :| p in f.plans && p.shareable;
      var j :| 0 <= j < |f.plans| && f.plans[j] == p;
      assert s'.plans[j].content.shareable && IsReference(s'.plans[|f.plans|]);
    }
    if HasShareable(s') {
      var j :| 0 <= j < |s'.plans| && s'.plans[j].content.shareable;
      assert f.plans[j] in f.plans && f.plans[j].shareable;
    }
    ReferenceTaken(db, s, s', brokerID);
  }

  /** The reused reference plan has the catalog id of the stored one, of which there is only one. */
  lemma ReferenceTaken(db: Db, s: Service, s': Service, brokerID: ID)
    requires db.Valid() && ReferencesRight(db) && Reused(db.offerings, db.plans, brokerID, s, s')
    ensures forall j, k | 0 <= j < |s'.plans| && IsReference(s'.plans[j])
                          && ReferenceOf(db.offerings, db.plans, brokerID, s'.offering.catalogID, k) ::
              s'.plans[j].catalogID == db.plans[k].catalogID
  {
    var c := s.offering.catalogID;
    forall j, k | 0 <= j < |s'.plans| && IsReference(s'.plans[j]) && ReferenceOf(db.offerings, db.plans, brokerID, c, k)
      ensures s'.plans[j].catalogID == db.plans[k].catalogID
    {
      assert IsReference(s.plans[j]);
      assert TakesOn(db.offerings, db.plans, brokerID, c, s.plans[j], s'.plans[j]);
      var l :| ReferenceOf(db.offerings, db.plans, brokerID, c, l) && s'.plans[j] == s.plans[j].(catalogID := db.plans[l].catalogID);
      assert db.plans[k].parent == db.plans[l].parent;
    }
  }

  lemma ShownDistinct(f: FetchedService, s: Service, brokerID: ID, now: int)
    requires Shows(f, s, brokerID, now) && DistinctPlanIds(f.plans)
    ensures DistinctPlans(s.plans)
  {
  }

  /** The services show the fetched catalog and suit the database. */
  ghost predicate ReadyToStore(db: Db, fetched: seq<FetchedService>, services: seq<Service>, brokerID: ID, now: int, next: ID) {
    && |services| == |fetched| && WellFormed(services, brokerID, next)
    && forall i | 0 <= i < |services| ::
         Shows(fetched[i], services[i], brokerID, now) && Suits(db, brokerID, services[i])
         && (HasShareable(services[i]) <==> CatalogFetch.Shares(fetched[i]))
  }

  lemma ReadyAll(db: Db, fetched: seq<FetchedService>, services: seq<Service>, services': seq<Service>, brokerID: ID,
                 now: int, clock: int, next: ID)
    requires db.Valid() && ReferencesRight(db) && DistinctIds(fetched) && db.next <= next
    requires |services| == |fetched| == |services'| && forall f | f in fetched :: Acceptable(f)
    requires forall i | 0 <= i < |fetched| :: Prepared(fetched[i], services[i], brokerID, now, clock, db.next, next)
    requires forall i | 0 <= i < |fetched| :: Reused(db.offerings, db.plans, brokerID, services[i], services'[i])
    ensures ReadyToStore(db, fetched, services', brokerID, now, next)
  {
    forall i | 0 <= i < |fetched|
      ensures Shows(fetched[i], services'[i], brokerID, now) && Suits(db, brokerID, services'[i])
      ensures HasShareable(services'[i]) <==> CatalogFetch.Shares(fetched[i])
      ensures DistinctPlans(services'[i].plans)
      ensures forall j | 0 <= j < |services'[i].plans| && services'[i].plans[j].catalogID.Generated? ::
                services'[i].plans[j].catalogID.id < next
    {
      var f := fetched[i];
      assert f in fetched;
      PreparedLast(f, services[i], brokerID, now, clock, db.next, next);
      ReusedShows(db, f, services[i], services'[i], brokerID, now, next);
      ShownSuits(db, f, services[i], services'[i], brokerID, now);
      ShownDistinct(f, services'[i], brokerID, now);
    }
  }

  /** Fetching and reusing: the catalog made ready, unless it is refused. For a new broker there is nothing to reuse. */
  method MakeReady(store: CatalogStore, brokerID: ID, fetched: seq<FetchedService>, now: int, clock: int)
    returns (ok: bool, services: seq<Service>)
    requires DbOf(store).Valid() && ReferencesRight(DbOf(store)) && DistinctIds(fetched)
    modifies store`next
    ensures store.next >= old(store.next) && (ok <==> forall f | f in fetched :: Acceptable(f))
    ensures ok ==> ReadyToStore(old(DbOf(store)), fetched, services, brokerID, now, store.next)
  {
    ghost var db := DbOf(store);
    var prepared;
    ok, prepared := Prepare(store, brokerID, fetched, now, clock);
    services := [];
    if ok {
      forall i | 0 <= i < |fetched| ensures ReferenceLast(prepared[i]) {
        assert fetched[i] in fetched;
        PreparedLast(fetched[i], prepared[i], brokerID, now, clock, db.next, store.next);
      }
      services := ReuseReferences(store, brokerID, prepared);
      ReadyAll(db, fetched, prepared, services, brokerID, now, clock, store.next);
    }
  }

  lemma SameSharing(db: Db, next: ID, brokerID: ID, services: seq<Service>, shared: set<ID>)
    ensures LosesSharing(db.(next := next), brokerID, services, shared) <==> LosesSharing(db, brokerID, services, shared)
  {
    var db' := db.(next := next);
    if LosesSharing(db, brokerID, services, shared) {
      var k: ID, i: nat, j: nat :| Loses(db, brokerID, services, shared, k, i, j);
      assert Loses(db', brokerID, services, shared, k, i, j);
    }
    if LosesSharing(db', brokerID, services, shared) {
      var k: ID, i: nat, j: nat :| Loses(db', brokerID, services, shared, k, i, j);
      assert Loses(db, brokerID, services, shared, k, i, j);
    }
  }

  lemma SameDropped(db: Db, next: ID, brokerID: ID, services: seq<Service>, used: set<ID>)
    ensures DropsUsed(db.(next := next), brokerID, services, used) <==> DropsUsed(db, brokerID, services, used)
  {
    forall k ensures Dropped(db.(next := next), brokerID, services, k) <==> Dropped(db, brokerID, services, k) {}
  }

  lemma ReadyFollows(db: Db, fetched: seq<FetchedService>, services: seq<Service>, ids: seq<ID>, brokerID: ID, now: int,
                     drawn: ID, db': Db)
    requires ReadyToStore(db, fetched, services, brokerID, now, drawn) && drawn >= db.next
    requires CatalogStored(db.(next := drawn), db', brokerID, services, ids)
    ensures Follows(db, Step(brokerID, services, ids), drawn, db')
  {
    forall i | 0 <= i < |services| ensures Suits(db.(next := drawn), brokerID, services[i]) {
      assert Suits(db, brokerID, services[i]);
    }
  }

  /** A broker update. It goes through exactly when the catalog is acceptable, no plan with shared instances would lose
      sharing and no plan with instances would go; otherwise nothing stored changes. */
  method UpdateBroker(store: CatalogStore, brokerID: ID, fetched: seq<FetchedService>, now: int, clock: int,
                      shared: set<ID>, used: set<ID>)
    returns (ok: bool, ghost step: Step, ghost drawn: ID)
    requires DbOf(store).Valid() && ReferencesRight(DbOf(store)) && DistinctIds(fetched)
    modifies store
    ensures ok <==> && (forall f | f in fetched :: Acceptable(f))
                    && !LosesSharing(old(DbOf(store)), brokerID, step.services, shared)
                    && !DropsUsed(old(DbOf(store)), brokerID, step.services, used)
    ensures (forall f | f in fetched :: Acceptable(f)) ==>
              ReadyToStore(old(DbOf(store)), fetched, step.services, brokerID, now, drawn)
    ensures ok ==> step.brokerID == brokerID && Follows(old(DbOf(store)), step, drawn, DbOf(store))
    ensures !ok ==> store.offerings == old(store.offerings) && store.plans == old(store.plans)
  {
    ghost var db := DbOf(store);
    var services;
    ok, services := MakeReady(store, brokerID, fetched, now, clock);
    drawn, step := store.next, Step(brokerID, services, []);
    if ok {
      ghost var ids;
      ok, ids := UpdateCatalog(store, brokerID, services, shared, used);
      step := Step(brokerID, services, ids);
      SameSharing(db, drawn, brokerID, services, shared);
      SameDropped(db, drawn, brokerID, services, used);
      if ok {
        ReadyFollows(db, fetched, services, ids, brokerID, now, drawn, DbOf(store));
      }
    }
  }

  /** A broker create. It goes through exactly when the catalog is acceptable. */
  method CreateBroker(store: CatalogStore, brokerID: ID, fetched: seq<FetchedService>, now: int, clock: int)
    returns (ok: bool, ghost step: Step, ghost drawn: ID)
    requires DbOf(store).Valid() && ReferencesRight(DbOf(store)) && DistinctIds(fetched)
    requires OwnIds(store.offerings, brokerID) == {}
    modifies store
    ensures ok <==> forall f | f in fetched :: Acceptable(f)
    ensures ok ==> ReadyToStore(old(DbOf(store)), fetched, step.services, brokerID, now, drawn)
    ensures ok ==> step.brokerID == brokerID && Follows(old(DbOf(store)), step, drawn, DbOf(store))
    ensures !ok ==> store.offerings == old(store.offerings) && store.plans == old(store.plans)
  {
    ghost var db := DbOf(store);
    var services;
    ok, services := MakeReady(store, brokerID, fetched, now, clock);
    drawn, step := store.next, Step(brokerID, services, []);
    if ok {
      ghost var ids := CreateCatalog(store, brokerID, services);
      step := Step(brokerID, services, ids);
      ReadyFollows(db, fetched, services, ids, brokerID, now, drawn, DbOf(store));
    }
  }
}
