/** Replacing a broker's stored catalog by the fetched one (storage/interceptors/broker_update_catalog_interceptor.go). */
module CatalogUpdate {
  import opened CatalogTypes

  /** A service of a catalog, with its plans. */
  datatype Service = Service(offering: Row, plans: seq<Row>)

  function OfferingRows(services: seq<Service>): set<Row> {
    set i | 0 <= i < |services| :: services[i].offering
  }

  ghost predicate DistinctServices(services: seq<Service>) {
    forall i, j | 0 <= i < j < |services| :: services[i].offering.catalogID != services[j].offering.catalogID
  }

  ghost predicate AllOf(services: seq<Service>, brokerID: ID) {
    forall i | 0 <= i < |services| :: services[i].offering.parent == brokerID
  }

  /** The offerings of a broker by catalog id that no row in done has the key of. */
  ghost predicate Unmatched(before: Table, done: set<Row>, brokerID: ID, existing: map<CatalogID, ID>) {
    && (forall c | c in existing ::
          existing[c] in before && KeyOf(before[existing[c]]) == (brokerID, c) && !Wants(done, (brokerID, c)))
    && (forall k | k in before && before[k].parent == brokerID && !Wants(done, KeyOf(before[k])) ::
          before[k].catalogID in existing && existing[before[k].catalogID] == k)
  }

  lemma MatchOne(before: Table, done: set<Row>, brokerID: ID, existing: map<CatalogID, ID>, w: Row)
    requires Unique(before) && Unmatched(before, done, brokerID, existing) && w.parent == brokerID
    ensures Unmatched(before, done + {w}, brokerID, existing - {w.catalogID})
  {
    assert w in done + {w};
    assert forall v | v in done :: v in done + {w};
    forall c | c in existing - {w.catalogID} ensures !Wants(done + {w}, (brokerID, c)) {}
  }

  /** The id a service got: that of the stored offering with its key, else that of the one to be created. */
  ghost predicate Assigned(before: Table, toCreate: Table, w: Row, id: ID) {
    if HasKey(before, KeyOf(w)) then id in before && KeyOf(before[id]) == KeyOf(w) else id in toCreate && toCreate[id] == w
  }

  ghost predicate AllAssigned(before: Table, toCreate: Table, services: seq<Service>, ids: seq<ID>) {
    |ids| <= |services| && forall j | 0 <= j < |ids| :: Assigned(before, toCreate, services[j].offering, ids[j])
  }

  lemma AssignOne(before: Table, toCreate: Table, toCreate': Table, services: seq<Service>, ids: seq<ID>, id: ID)
    requires AllAssigned(before, toCreate, services, ids) && |ids| < |services|
    requires forall k | k in toCreate :: k in toCreate' && toCreate'[k] == toCreate[k]
    requires Assigned(before, toCreate', services[|ids|].offering, id)
    ensures AllAssigned(before, toCreate', services, ids + [id])
  {
  }

  /** The plans whose offering is there. */
  function Below(plans: Table, offerings: Table): Table {
    map k | k in plans && plans[k].parent in offerings :: plans[k]
  }

  class CatalogStore {
    var offerings: Table
    var plans: Table
    var next: ID

    ghost predicate Valid()
      reads this
    {
      && Unique(offerings) && Unique(plans)
      && (forall k | k in offerings :: k < next)
      && (forall k | k in plans :: k < next && plans[k].parent in offerings)
      && (forall k | k in plans && plans[k].catalogID.Generated? :: plans[k].catalogID.id < next)
    }

    constructor ()
      ensures Valid() && offerings == map[] && plans == map[]
    {
      offerings, plans, next := map[], map[], 0;
    }

    /** The offerings stored for a broker, by catalog id. */
    method ExistingOfferings(brokerID: ID) returns (existing: map<CatalogID, ID>)
      requires Valid()
      ensures Unmatched(offerings, {}, brokerID, existing)
    {
      existing := map[];
      var todo := set k | k in offerings && offerings[k].parent == brokerID;
      while todo != {}
        invariant forall k | k in todo :: k in offerings && offerings[k].parent == brokerID
        invariant forall c | c in existing :: existing[c] in offerings && KeyOf(offerings[existing[c]]) == (brokerID, c)
        invariant forall k | k in offerings && offerings[k].parent == brokerID && k !in todo ::
                    offerings[k].catalogID in existing && existing[offerings[k].catalogID] == k
        decreases todo
      {
        var k :| k in todo;
        existing := existing[offerings[k].catalogID := k];
        todo := todo - {k};
      }
    }

    /** One service of the catalog: write over the stored offering, or take down what has to be created. */
    method UpdateOffering(brokerID: ID, w: Row, existing: map<CatalogID, ID>, toCreate: Table,
                          ghost before: Table, ghost done: set<Row>, ghost first: ID)
      returns (id: ID, existing': map<CatalogID, ID>, toCreate': Table)
      requires Unique(before) && w.parent == brokerID && !Wants(done, KeyOf(w))
      requires Resyncing(before, offerings, done, brokerID, existing, toCreate, first, next)
      modifies `offerings, `next
      ensures Resyncing(before, offerings, done + {w}, brokerID, existing', toCreate', first, next) && next >= old(next)
      ensures Assigned(before, toCreate', w, id) && forall k | k in toCreate :: k in toCreate' && toCreate'[k] == toCreate[k]
    {
      MatchOne(before, done, brokerID, existing, w);
      if w.catalogID in existing {
        id, existing', toCreate' := existing[w.catalogID], existing - {w.catalogID}, toCreate;
        UpdatedKeys(before, offerings, done);
        UpdateOne(before, offerings, done, w, id);
        offerings := offerings[id := w.(createdAt := offerings[id].createdAt)];
      } else {
        MissingKey(before, done, brokerID, existing, w);
        assert existing - {w.catalogID} == existing;
        assert w !in done by { assert w in done ==> Wants(done, KeyOf(w)); }
        MissOne(before, offerings, done, w);
        CreateOne(toCreate, Missing(before, done), first, next, w);
        id, existing', toCreate' := next, existing, toCreate[next := w];
        next := next + 1;
      }
    }

    /** The loop over the catalog's services. */
    method UpdateOfferings(brokerID: ID, services: seq<Service>)
      returns (ids: seq<ID>, toCreate: Table, existing: map<CatalogID, ID>)
      requires Valid() && AllOf(services, brokerID) && DistinctServices(services)
      modifies `offerings, `next
      ensures Resyncing(old(offerings), offerings, OfferingRows(services), brokerID, existing, toCreate, old(next), next)
      ensures next >= old(next) && |ids| == |services| && AllAssigned(old(offerings), toCreate, services, ids)
    {
      ghost var before := offerings;
      existing := ExistingOfferings(brokerID);
      ids, toCreate := [], map[];
      UpdatedStart(before);
      for i := 0 to |services|
        invariant next >= old(next)
        invariant Resyncing(before, offerings, OfferingRows(services[..i]), brokerID, existing, toCreate, old(next), next)
        invariant |ids| == i && AllAssigned(before, toCreate, services, ids)
      {
        NotYet(services, i);
        OneMoreRow(services, i);
        var id, toCreate';
        id, existing, toCreate' := UpdateOffering(brokerID, services[i].offering, existing, toCreate, before,
                                                  OfferingRows(services[..i]), old(next));
        AssignOne(before, toCreate, toCreate', services, ids, id);
        ids, toCreate := ids + [id], toCreate';
      }
      assert services[..|services|] == services;
    }

    /** Deleting an offering takes its plans along. */
    method DeleteOffering(id: ID)
      modifies `offerings, `plans
      ensures offerings == old(offerings) - {id}
      ensures plans == map k | k in old(plans) && old(plans)[k].parent != id :: old(plans)[k]
    {
      offerings := offerings - {id};
      plans := map k | k in plans && plans[k].parent != id :: plans[k];
    }

    /** The loop that deletes the offerings that are no longer in the catalog. */
    method DeleteOfferings(existing: map<CatalogID, ID>)
      modifies `offerings, `plans
      ensures offerings == old(offerings) - existing.Values
      ensures plans == map k | k in old(plans) && old(plans)[k].parent !in existing.Values :: old(plans)[k]
    {
      var todo := existing.Values;
      while todo != {}
        invariant todo <= existing.Values
        invariant offerings == old(offerings) - (existing.Values - todo)
        invariant plans == map k | k in old(plans) && old(plans)[k].parent !in existing.Values - todo :: old(plans)[k]
        decreases todo
      {
        var id :| id in todo;
        DeleteOffering(id);
        assert existing.Values - (todo - {id}) == (existing.Values - todo) + {id};
        todo := todo - {id};
      }
    }

    method CreateOfferings(toCreate: Table)
      modifies `offerings
      ensures offerings == old(offerings) + toCreate
    {
      var todo := toCreate.Keys;
      while todo != {}
        invariant todo <= toCreate.Keys
        invariant offerings == old(offerings) + map k | k in toCreate && k !in todo :: toCreate[k]
        decreases todo
      {
        var id :| id in todo;
        offerings := offerings[id := toCreate[id]];
        todo := todo - {id};
      }
      assert (map k | k in toCreate && k !in todo :: toCreate[k]) == toCreate;
    }

    /** All of the offerings: updated, deleted and created. */
    method ResyncOfferings(brokerID: ID, services: seq<Service>) returns (ids: seq<ID>)
      requires Valid() && AllOf(services, brokerID) && DistinctServices(services)
      modifies this
      ensures Replaced(old(offerings), offerings, OfferingRows(services), {brokerID}, old(next))
      ensures |ids| == |services| && IdsOf(offerings, services, ids)
      ensures plans == Below(old(plans), offerings)
      ensures next >= old(next) && forall k | k in offerings :: k < next
    {
      ghost var before, wanted := offerings, OfferingRows(services);
      var toCreate, existing;
      ids, toCreate, existing := UpdateOfferings(brokerID, services);
      ghost var updated := offerings;
      LeftoverValues(before, wanted, brokerID, existing);
      DeleteOfferings(existing);
      CreateOfferings(toCreate);
      DistinctRows(services, brokerID);
      StepsReplace(before, updated, toCreate, wanted, {brokerID}, old(next));
      AssignedIds(before, updated, toCreate, services, brokerID, ids);
      PlansBelow(old(plans), before, offerings, existing.Values, toCreate, old(next));
    }
  }

  /** ids[i] is where service i is stored. */
  ghost predicate IdsOf(offerings: Table, services: seq<Service>, ids: seq<ID>) {
    |ids| == |services| && forall i | 0 <= i < |ids| ::
      ids[i] in offerings && KeyOf(offerings[ids[i]]) == KeyOf(services[i].offering)
  }

  lemma LeftoverValues(before: Table, wanted: set<Row>, brokerID: ID, existing: map<CatalogID, ID>)
    requires Unmatched(before, wanted, brokerID, existing)
    ensures existing.Values == Leftover(before, wanted, {brokerID})
  {
    forall k | k in existing.Values ensures k in Leftover(before, wanted, {brokerID}) {
      var c :| c in existing && existing[c] == k;
    }
    forall k | k in Leftover(before, wanted, {brokerID}) ensures k in existing.Values {
      assert existing[before[k].catalogID] == k;
    }
  }

  lemma DistinctRows(services: seq<Service>, brokerID: ID)
    requires AllOf(services, brokerID) && DistinctServices(services)
    ensures Distinct(OfferingRows(services)) && forall w | w in OfferingRows(services) :: w.parent == brokerID
  {
  }

  lemma AssignedIds(before: Table, updated: Table, toCreate: Table, services: seq<Service>, brokerID: ID, ids: seq<ID>)
    requires Updated(before, updated, OfferingRows(services)) && AllAssigned(before, toCreate, services, ids)
    requires |ids| == |services| && toCreate.Keys !! before.Keys
    ensures IdsOf(Result(before, updated, toCreate, OfferingRows(services), {brokerID}), services, ids)
  {
    var wanted := OfferingRows(services);
    UpdatedKeys(before, updated, wanted);
    forall i | 0 <= i < |ids| ensures ids[i] in before ==> ids[i] !in Leftover(before, wanted, {brokerID}) {
      assert services[i].offering in wanted;
      assert Assigned(before, toCreate, services[i].offering, ids[i]);
    }
  }

  lemma PlansBelow(plans: Table, before: Table, offerings: Table, gone: set<ID>, toCreate: Table, first: ID)
    requires forall k | k in plans :: plans[k].parent in before
    requires forall k | k in before :: k < first
    requires forall k | k in toCreate :: k >= first
    requires offerings.Keys == before.Keys - gone + toCreate.Keys
    ensures (map k | k in plans && plans[k].parent !in gone :: plans[k]) == Below(plans, offerings)
  {
  }

  /** Where the loop over the services stands. */
  ghost predicate Resyncing(before: Table, t: Table, done: set<Row>, brokerID: ID, existing: map<CatalogID, ID>,
                            toCreate: Table, first: ID, next: ID)
  {
    && Updated(before, t, done) && Unmatched(before, done, brokerID, existing)
    && Creates(toCreate, Missing(before, done), first) && first <= next && (forall k | k in toCreate :: k < next)
  }

  lemma NotYet(services: seq<Service>, i: nat)
    requires i < |services| && DistinctServices(services)
    ensures !Wants(OfferingRows(services[..i]), KeyOf(services[i].offering))
    ensures services[i].offering !in OfferingRows(services[..i])
  {
  }

  lemma OneMoreRow(services: seq<Service>, i: nat)
    requires i < |services|
    ensures OfferingRows(services[..i + 1]) == OfferingRows(services[..i]) + {services[i].offering}
  {
    var more := services[..i + 1];
    assert more[i] == services[i] && forall j | 0 <= j < i :: more[j] == services[..i][j];
  }

  lemma MissingKey(before: Table, done: set<Row>, brokerID: ID, existing: map<CatalogID, ID>, w: Row)
    requires Unmatched(before, done, brokerID, existing) && w.parent == brokerID && w.catalogID !in existing
    requires !Wants(done, KeyOf(w))
    ensures !HasKey(before, KeyOf(w))
  {
  }
}
