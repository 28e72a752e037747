/** A fetched catalog made ready for storing (storage/interceptors/broker_create_catalog_interceptor.go), and the reference
    plan reused on update (storage/interceptors/broker_update_catalog_interceptor.go). */
module CatalogFetch {
  import opened CatalogTypes
  import opened CatalogUpdate
  import opened Wrappers

  const REFERENCE_PLAN := "reference-instance"

  const REFERENCE_DESCRIPTION :=
    "Allows to create a reference to a shared service instance from any environment in a subaccount and manage service bindings to that service instance."

  datatype FetchedPlan =
    FetchedPlan(id: string, name: string, catalogName: string, description: string, bindable: Option<bool>, shareable: bool)

  datatype FetchedService =
    FetchedService(id: string, name: string, description: string, bindable: bool, plans: seq<FetchedPlan>)

  function OfferingRow(f: FetchedService, brokerID: ID, now: int): Row {
    Row(Given(f.id), brokerID, now, Content(f.name, f.description, Some(f.bindable), false))
  }

  /** A plan before its offering has an id. */
  function PlanRow(p: FetchedPlan, now: int): Row {
    Row(Given(p.id), 0, now, Content(p.name, p.description, p.bindable, p.shareable))
  }

  function ReferenceRow(id: ID, clock: int): Row {
    Row(Generated(id), 0, clock, Content(REFERENCE_PLAN, REFERENCE_DESCRIPTION, Some(true), false))
  }

  predicate Reserved(p: FetchedPlan) {
    p.name == REFERENCE_PLAN || p.catalogName == REFERENCE_PLAN
  }

  predicate Bindable(f: FetchedService, p: FetchedPlan) {
    if p.bindable.Some? then p.bindable.value else f.bindable
  }

  predicate AcceptablePlan(f: FetchedService, p: FetchedPlan) {
    && !Reserved(p) && p.id != "" && p.name != "" && p.description != ""
    && (p.shareable ==> Bindable(f, p))
  }

  predicate Acceptable(f: FetchedService) {
    f.id != "" && f.name != "" && forall p | p in f.plans :: AcceptablePlan(f, p)
  }

  predicate Shares(f: FetchedService) {
    exists p | p in f.plans :: p.shareable
  }

  /** The service keeps the fetched plans in order, and a reference plan follows them when some plan can be shared. */
  ghost predicate Prepared(f: FetchedService, s: Service, brokerID: ID, now: int, clock: int, first: ID, next: ID) {
    && s.offering == OfferingRow(f, brokerID, now)
    && |s.plans| == |f.plans| + (if Shares(f) then 1 else 0)
    && (forall j | 0 <= j < |f.plans| :: s.plans[j] == PlanRow(f.plans[j], now))
    && (Shares(f) ==> exists id :: first <= id < next && s.plans[|f.plans|] == ReferenceRow(id, clock))
  }

  /** The loop over the plans of a service. */
  method PreparePlans(f: FetchedService, now: int) returns (ok: bool, plans: seq<Row>, shared: bool)
    ensures ok <==> forall p | p in f.plans :: AcceptablePlan(f, p)
    ensures ok ==> |plans| == |f.plans| && (forall j | 0 <= j < |plans| :: plans[j] == PlanRow(f.plans[j], now))
    ensures ok ==> shared == Shares(f)
  {
    plans, shared := [], false;
    for i := 0 to |f.plans|
      invariant |plans| == i && forall j | 0 <= j < i :: plans[j] == PlanRow(f.plans[j], now)
      invariant forall p | p in f.plans[..i] :: AcceptablePlan(f, p)
      invariant shared <==> exists p | p in f.plans[..i] :: p.shareable
    {
      var p := f.plans[i];
      assert f.plans[..i + 1] == f.plans[..i] + [p];
      assert p in f.plans;
      if Reserved(p) || p.id == "" || p.name == "" || p.description == "" {
        return false, [], false;
      }
      if p.shareable {
        if !Bindable(f, p) {
          return false, [], false;
        }
        shared := true;
      }
      plans := plans + [PlanRow(p, now)];
    }
    assert f.plans[..|f.plans|] == f.plans;
    ok := true;
  }

  /** brokerCatalogAroundTx: refuse what is invalid, reserved or not bindable, and add the reference plans. */
  method Prepare(store: CatalogStore, brokerID: ID, fetched: seq<FetchedService>, now: int, clock: int)
    returns (ok: bool, services: seq<Service>)
    modifies store`next
    ensures store.next >= old(store.next)
    ensures ok <==> forall f | f in fetched :: Acceptable(f)
    ensures ok ==> |services| == |fetched|
                   && forall i | 0 <= i < |fetched| ::
                        Prepared(fetched[i], services[i], brokerID, now, clock, old(store.next), store.next)
  {
    services := [];
    for i := 0 to |fetched|
      invariant store.next >= old(store.next) && |services| == i && forall f | f in fetched[..i] :: Acceptable(f)
      invariant forall j | 0 <= j < i :: Prepared(fetched[j], services[j], brokerID, now, clock, old(store.next), store.next)
    {
      var f := fetched[i];
      assert fetched[..i + 1] == fetched[..i] + [f];
      assert f in fetched;
      if f.id == "" || f.name == "" {
        return false, [];
      }
      var plansOk, plans, shared := PreparePlans(f, now);
      if !plansOk {
        return false, [];
      }
      if shared {
        plans := plans + [ReferenceRow(store.next, clock)];
        store.next := store.next + 1;
      }
      services := services + [Service(OfferingRow(f, brokerID, now), plans)];
    }
    assert fetched[..|fetched|] == fetched;
    ok := true;
  }

  // ----- reusing the reference plan -----

  predicate IsReference(r: Row) {
    r.content.name == REFERENCE_PLAN
  }

  /** k is a stored reference plan below the broker's offering c. */
  predicate ReferenceOf(offerings: Table, plans: Table, brokerID: ID, c: CatalogID, k: ID) {
    k in plans && IsReference(plans[k]) && plans[k].parent in offerings && KeyOf(offerings[plans[k].parent]) == (brokerID, c)
  }

  /** At most the reference plan differs: it takes on the catalog id of the stored one. */
  ghost predicate Reused(offerings: Table, plans: Table, brokerID: ID, s: Service, s': Service) {
    && s'.offering == s.offering && |s'.plans| == |s.plans|
    && forall j | 0 <= j < |s.plans| ::
         if !IsReference(s.plans[j]) then s'.plans[j] == s.plans[j]
         else TakesOn(offerings, plans, brokerID, s.offering.catalogID, s.plans[j], s'.plans[j])
  }

  ghost predicate TakesOn(offerings: Table, plans: Table, brokerID: ID, c: CatalogID, r: Row, r': Row) {
    || (r' == r && forall k :: !ReferenceOf(offerings, plans, brokerID, c, k))
    || exists k :: ReferenceOf(offerings, plans, brokerID, c, k) && r' == r.(catalogID := plans[k].catalogID)
  }

  /** A reference plan is only ever the last of its service. */
  ghost predicate ReferenceLast(s: Service) {
    forall j | 0 <= j < |s.plans| - 1 :: !IsReference(s.plans[j])
  }

  /** reuseReferenceInstancePlans, for one service of the new catalog. */
  method ReuseReference(store: CatalogStore, brokerID: ID, s: Service) returns (s': Service)
    requires ReferenceLast(s)
    ensures Reused(store.offerings, store.plans, brokerID, s, s')
  {
    s' := s;
    var todo := set k | k in store.plans && ReferenceOf(store.offerings, store.plans, brokerID, s.offering.catalogID, k);
    assert forall k :: ReferenceOf(store.offerings, store.plans, brokerID, s.offering.catalogID, k) ==> k in todo;
    if todo != {} {
      var k :| k in todo;
      var j := 0;
      while j < |s.plans|
        invariant j <= |s.plans| && s' == s && forall i | 0 <= i < j :: !IsReference(s.plans[i])
      {
        if IsReference(s.plans[j]) {
          s' := s.(plans := s.plans[j := s.plans[j].(catalogID := store.plans[k].catalogID)]);
          assert ReferenceOf(store.offerings, store.plans, brokerID, s.offering.catalogID, k);
          return;
        }
        j := j + 1;
      }
    }
  }

  method ReuseReferences(store: CatalogStore, brokerID: ID, services: seq<Service>) returns (services': seq<Service>)
    requires forall i | 0 <= i < |services| :: ReferenceLast(services[i])
    ensures |services'| == |services|
    ensures forall i | 0 <= i < |services| :: Reused(store.offerings, store.plans, brokerID, services[i], services'[i])
  {
    services' := [];
    for i := 0 to |services|
      invariant |services'| == i
      invariant forall j | 0 <= j < i :: Reused(store.offerings, store.plans, brokerID, services[j], services'[j])
    {
      var s := ReuseReference(store, brokerID, services[i]);
      services' := services' + [s];
    }
  }
}
