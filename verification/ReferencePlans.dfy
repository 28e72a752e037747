/** The reference plan over every run of broker creates and updates
    (storage/interceptors/broker_create_catalog_interceptor.go, storage/interceptors/broker_update_catalog_interceptor.go). */
module ReferencePlans {
  import opened CatalogTypes
  import opened CatalogUpdate
  import opened CatalogPlans
  import opened CatalogFetch
  import opened CatalogBroker

  // ----- what holds of every database -----

  predicate OffersSharing(plans: Table, o: ID) {
    exists k | k in plans :: plans[k].parent == o && plans[k].content.shareable
  }

  predicate OffersReference(plans: Table, o: ID) {
    exists k | k in plans :: plans[k].parent == o && IsReference(plans[k])
  }

  /** Every offering has exactly one reference plan if one of its plans can be shared, and none otherwise. */
  ghost predicate ReferencesRight(db: Db) {
    && (forall o | o in db.offerings :: OffersReference(db.plans, o) <==> OffersSharing(db.plans, o))
    && (forall k, l | k in db.plans && l in db.plans && IsReference(db.plans[k]) && IsReference(db.plans[l])
                      && db.plans[k].parent == db.plans[l].parent :: k == l)
    && (forall k | k in db.plans :: IsReference(db.plans[k]) <==> db.plans[k].catalogID.Generated?)
  }

  // ----- what holds of the services that are stored -----

  predicate HasShareable(s: Service) {
    exists j | 0 <= j < |s.plans| :: s.plans[j].content.shareable
  }

  predicate HasReference(s: Service) {
    exists j | 0 <= j < |s.plans| :: IsReference(s.plans[j])
  }

  /** A service has one reference plan exactly when some plan can be shared, with the catalog id of the stored one if there
      is a stored one. */
  ghost predicate Suits(db: Db, brokerID: ID, s: Service) {
    && (HasReference(s) <==> HasShareable(s))
    && (forall i, j | 0 <= i < |s.plans| && 0 <= j < |s.plans| && IsReference(s.plans[i]) && IsReference(s.plans[j]) :: i == j)
    && (forall j | 0 <= j < |s.plans| :: IsReference(s.plans[j]) <==> s.plans[j].catalogID.Generated?)
    && (forall j, k | 0 <= j < |s.plans| && IsReference(s.plans[j])
                      && ReferenceOf(db.offerings, db.plans, brokerID, s.offering.catalogID, k) ::
          s.plans[j].catalogID == db.plans[k].catalogID)
  }

  /** One broker create or update: the services that were stored, and the ids of their offerings. */
  datatype Step = Step(brokerID: ID, services: seq<Service>, ids: seq<ID>)

  ghost predicate Takes(db: Db, step: Step, db': Db) {
    && |step.ids| == |step.services|
    && WellFormed(step.services, step.brokerID, db.next)
    && (forall i | 0 <= i < |step.services| :: Suits(db, step.brokerID, step.services[i]))
    && CatalogStored(db, db', step.brokerID, step.services, step.ids)
  }

  // ----- from the services to the stored rows, and back -----

  lemma PlanStored(db: Db, step: Step, db': Db, i: nat, j: nat) returns (k: ID)
    requires Takes(db, step, db') && i < |step.services| && j < |step.services[i].plans|
    ensures var w := step.services[i].plans[j].(parent := step.ids[i]); StoredAs(db.plans, db'.plans, w, db.next, k)
  {
    var services, ids := step.services, step.ids;
    var w := services[i].plans[j].(parent := ids[i]);
    assert RowsOf(services[i], ids[i])[j] == w;
    assert i in Indices(|services|) && w in RowsOf(services[i], ids[i]);
    assert w in WantedPlans(services, ids);
    assert Stored(db.plans, db'.plans, w, db.next);
    k :| StoredAs(db.plans, db'.plans, w, db.next, k);
  }

  lemma StoredIsIt(before: Table, after: Table, w: Row, next: ID, k: ID)
    requires Unique(after) && Stored(before, after, w, next) && k in after && KeyOf(after[k]) == KeyOf(w)
    ensures StoredAs(before, after, w, next, k)
  {
    var l :| StoredAs(before, after, w, next, l);
    assert l == k;
  }

  /** A plan stored below one of the broker's offerings is one of its service's plans. */
  lemma PlanOfService(db: Db, step: Step, db': Db, k: ID) returns (i: nat, j: nat)
    requires Takes(db, step, db') && k in db'.plans && db'.plans[k].parent in step.ids
    ensures i < |step.services| && j < |step.services[i].plans| && db'.plans[k].parent == step.ids[i]
    ensures db'.plans[k].catalogID == step.services[i].plans[j].catalogID
    ensures db'.plans[k].content == step.services[i].plans[j].content
  {
    var w: Row;
    i, j, w := WantedFrom(db, step, db', k);
    StoredIsIt(db.plans, db'.plans, w, db.next, k);
  }

  lemma WantedIndex(services: seq<Service>, ids: seq<ID>, w: Row) returns (i: nat, j: nat)
    requires |ids| == |services| && w in WantedPlans(services, ids)
    ensures i < |services| && j < |services[i].plans| && w == services[i].plans[j].(parent := ids[i])
  {
    i :| 0 <= i < |services| && w in RowsOf(services[i], ids[i]);
    j :| 0 <= j < |services[i].plans| && RowsOf(services[i], ids[i])[j] == w;
  }

  lemma WantedFrom(db: Db, step: Step, db': Db, k: ID) returns (i: nat, j: nat, w: Row)
    requires Takes(db, step, db') && k in db'.plans && db'.plans[k].parent in step.ids
    ensures i < |step.services| && j < |step.services[i].plans| && w == step.services[i].plans[j].(parent := step.ids[i])
    ensures KeyOf(w) == KeyOf(db'.plans[k]) && Stored(db.plans, db'.plans, w, db.next)
  {
    var services, ids := step.services, step.ids;
    assert Wants(WantedPlans(services, ids), KeyOf(db'.plans[k]));
    w :| w in WantedPlans(services, ids) && KeyOf(w) == KeyOf(db'.plans[k]);
    i, j := WantedIndex(services, ids, w);
  }

  /** The offerings of the broker are those of the step; the plans below any other offering are as they were. */
  lemma OfferingOfStep(db: Db, step: Step, db': Db, o: ID)
    requires db.Valid() && Takes(db, step, db') && o in db'.offerings
    ensures if db'.offerings[o].parent == step.brokerID then o in step.ids
            else o in db.offerings && o !in step.ids && o !in OwnIds(db.offerings, step.brokerID)
  {
    var services, ids := step.services, step.ids;
    if db'.offerings[o].parent == step.brokerID {
      assert Wants(OfferingRows(services), KeyOf(db'.offerings[o]));
      var w :| w in OfferingRows(services) && KeyOf(w) == KeyOf(db'.offerings[o]);
      var i :| 0 <= i < |services| && services[i].offering == w;
      assert KeyOf(db'.offerings[ids[i]]) == KeyOf(db'.offerings[o]);
    } else {
      assert db'.offerings[o] == db.offerings[o];
    }
  }

  lemma OtherPlansStay(db: Db, step: Step, db': Db, o: ID)
    requires db.Valid() && Takes(db, step, db') && o !in step.ids && o !in OwnIds(db.offerings, step.brokerID)
    ensures forall k :: (k in db.plans && db.plans[k].parent == o) <==> (k in db'.plans && db'.plans[k].parent == o)
    ensures forall k | k in db.plans && db.plans[k].parent == o :: db'.plans[k] == db.plans[k]
  {
  }

  /** For an offering of the broker, what is stored shows what its service has. */
  lemma ServiceShows(db: Db, step: Step, db': Db, i: nat)
    requires Takes(db, step, db') && i < |step.services|
    ensures OffersReference(db'.plans, step.ids[i]) <==> HasReference(step.services[i])
    ensures OffersSharing(db'.plans, step.ids[i]) <==> HasShareable(step.services[i])
  {
    var s, o := step.services[i], step.ids[i];
    if HasReference(s) {
      var j :| 0 <= j < |s.plans| && IsReference(s.plans[j]);
      var k := PlanStored(db, step, db', i, j);
    }
    if HasShareable(s) {
      var j :| 0 <= j < |s.plans| && s.plans[j].content.shareable;
      var k := PlanStored(db, step, db', i, j);
    }
    if OffersReference(db'.plans, o) {
      var k :| k in db'.plans && db'.plans[k].parent == o && IsReference(db'.plans[k]);
      var m, j := PlanOfService(db, step, db', k);
      SameService(db, step, db', m, i);
    }
    if OffersSharing(db'.plans, o) {
      var k :| k in db'.plans && db'.plans[k].parent == o && db'.plans[k].content.shareable;
      var m, j := PlanOfService(db, step, db', k);
      SameService(db, step, db', m, i);
    }
  }

  lemma SameService(db: Db, step: Step, db': Db, i: nat, j: nat)
    requires Takes(db, step, db') && i < |step.ids| && j < |step.ids| && step.ids[i] == step.ids[j]
    ensures i == j
  {
    assert KeyOf(db'.offerings[step.ids[i]]) == KeyOf(step.services[i].offering);
    assert KeyOf(db'.offerings[step.ids[j]]) == KeyOf(step.services[j].offering);
  }

  lemma OfferingRight(db: Db, step: Step, db': Db, o: ID)
    requires db.Valid() && ReferencesRight(db) && Takes(db, step, db') && o in db'.offerings
    ensures OffersReference(db'.plans, o) <==> OffersSharing(db'.plans, o)
  {
    OfferingOfStep(db, step, db', o);
    if o in step.ids {
      var i :| 0 <= i < |step.ids| && step.ids[i] == o;
      ServiceShows(db, step, db', i);
      assert Suits(db, step.brokerID, step.services[i]);
    } else {
      OtherPlansStay(db, step, db', o);
      OffersSame(db.plans, db'.plans, o);
    }
  }

  lemma OffersSame(plans: Table, plans': Table, o: ID)
    requires forall k :: (k in plans && plans[k].parent == o) <==> (k in plans' && plans'[k].parent == o)
    requires forall k | k in plans && plans[k].parent == o :: plans'[k] == plans[k]
    ensures OffersReference(plans', o) <==> OffersReference(plans, o)
    ensures OffersSharing(plans', o) <==> OffersSharing(plans, o)
  {
    if OffersReference(plans, o) {
      var k :| k in plans && plans[k].parent == o && IsReference(plans[k]);
      assert k in plans' && plans'[k] == plans[k];
    }
    if OffersSharing(plans, o) {
      var k :| k in plans && plans[k].parent == o && plans[k].content.shareable;
      assert k in plans' && plans'[k] == plans[k];
    }
  }

  lemma ReferenceGenerated(db: Db, step: Step, db': Db, k: ID)
    requires db.Valid() && ReferencesRight(db) && Takes(db, step, db') && k in db'.plans
    ensures IsReference(db'.plans[k]) <==> db'.plans[k].catalogID.Generated?
  {
    OfferingOfStep(db, step, db', db'.plans[k].parent);
    if db'.plans[k].parent in step.ids {
      var i, j := PlanOfService(db, step, db', k);
      assert Suits(db, step.brokerID, step.services[i]);
    } else {
      OtherPlansStay(db, step, db', db'.plans[k].parent);
    }
  }

  lemma OneReferenceOfStep(db: Db, step: Step, db': Db, k: ID, l: ID)
    requires Takes(db, step, db') && k in db'.plans && l in db'.plans && db'.plans[k].parent in step.ids
    requires IsReference(db'.plans[k]) && IsReference(db'.plans[l]) && db'.plans[k].parent == db'.plans[l].parent
    ensures KeyOf(db'.plans[k]) == KeyOf(db'.plans[l])
  {
    var i, j := PlanOfService(db, step, db', k);
    var m, n := PlanOfService(db, step, db', l);
    SameService(db, step, db', i, m);
    assert Suits(db, step.brokerID, step.services[i]);
  }

  lemma OneReference(db: Db, step: Step, db': Db, k: ID, l: ID)
    requires db.Valid() && ReferencesRight(db) && Takes(db, step, db') && k in db'.plans && l in db'.plans
    requires IsReference(db'.plans[k]) && IsReference(db'.plans[l]) && db'.plans[k].parent == db'.plans[l].parent
    ensures k == l
  {
    var o := db'.plans[k].parent;
    OfferingOfStep(db, step, db', o);
    if o in step.ids {
      OneReferenceOfStep(db, step, db', k, l);
    } else {
      OtherPlansStay(db, step, db', o);
      assert db.plans[k] == db'.plans[k] && db.plans[l] == db'.plans[l];
    }
  }

  /** Every create and update keeps the references right. */
  lemma StepKeepsReferences(db: Db, step: Step, db': Db)
    requires db.Valid() && ReferencesRight(db) && Takes(db, step, db')
    ensures db'.Valid() && ReferencesRight(db')
  {
    forall o | o in db'.offerings ensures OffersReference(db'.plans, o) <==> OffersSharing(db'.plans, o) {
      OfferingRight(db, step, db', o);
    }
    forall k | k in db'.plans ensures IsReference(db'.plans[k]) <==> db'.plans[k].catalogID.Generated? {
      ReferenceGenerated(db, step, db', k);
    }
    forall k, l | k in db'.plans && l in db'.plans && IsReference(db'.plans[k]) && IsReference(db'.plans[l])
                  && db'.plans[k].parent == db'.plans[l].parent ensures k == l
    {
      OneReference(db, step, db', k, l);
    }
  }

  // ----- the reference plan stays -----

  /** The catalog still offers sharing in the broker's offering c; a step of another broker leaves it alone. */
  ghost predicate KeepsSharing(step: Step, brokerID: ID, c: CatalogID) {
    step.brokerID == brokerID ==>
      exists i | 0 <= i < |step.services| :: step.services[i].offering.catalogID == c && HasShareable(step.services[i])
  }

  lemma OwnReferenceKept(db: Db, step: Step, db': Db, c: CatalogID, k: ID, i: nat)
    requires db.Valid() && Takes(db, step, db') && ReferenceOf(db.offerings, db.plans, step.brokerID, c, k)
    requires i < |step.services| && step.services[i].offering.catalogID == c && HasReference(step.services[i])
    ensures ReferenceOf(db'.offerings, db'.plans, step.brokerID, c, k) && db'.plans[k].catalogID == db.plans[k].catalogID
  {
    var s, o := step.services[i], step.ids[i];
    ServiceHome(db.offerings, db'.offerings, step.services, step.ids, step.brokerID, db.next, i);
    assert HasKey(db.offerings, (step.brokerID, c));
    assert o == db.plans[k].parent;
    var j :| 0 <= j < |s.plans| && IsReference(s.plans[j]);
    assert Suits(db, step.brokerID, s);
    var l := PlanStored(db, step, db', i, j);
    ReferenceStored(db.plans, db'.plans, s.plans[j].(parent := o), db.next, k, l);
  }

  lemma ReferenceStored(before: Table, after: Table, w: Row, next: ID, k: ID, l: ID)
    requires Unique(before) && StoredAs(before, after, w, next, l) && k in before && KeyOf(before[k]) == KeyOf(w)
    ensures l == k && k in after && after[k].catalogID == before[k].catalogID && after[k].content == w.content
            && after[k].parent == w.parent
  {
    assert HasKey(before, KeyOf(w));
  }

  lemma ReferenceKept(db: Db, step: Step, db': Db, brokerID: ID, c: CatalogID, k: ID)
    requires db.Valid() && Takes(db, step, db') && KeepsSharing(step, brokerID, c)
    requires ReferenceOf(db.offerings, db.plans, brokerID, c, k)
    ensures ReferenceOf(db'.offerings, db'.plans, brokerID, c, k) && db'.plans[k].catalogID == db.plans[k].catalogID
  {
    if step.brokerID == brokerID {
      var i :| 0 <= i < |step.services| && step.services[i].offering.catalogID == c && HasShareable(step.services[i]);
      assert Suits(db, brokerID, step.services[i]);
      OwnReferenceKept(db, step, db', c, k, i);
    } else {
      var o := db.plans[k].parent;
      assert o in db'.offerings && db'.offerings[o] == db.offerings[o];
      OfferingOfStep(db, step, db', o);
      OtherPlansStay(db, step, db', o);
    }
  }

  // ----- runs -----

  /** A create or update that succeeds: ids are drawn while the catalog is made ready, then it is stored. */
  ghost predicate Follows(db: Db, step: Step, drawn: ID, db': Db) {
    drawn >= db.next && Takes(db.(next := drawn), step, db')
  }

  ghost predicate IsRun(dbs: seq<Db>, steps: seq<Step>, drawn: seq<ID>) {
    && |dbs| == |steps| + 1 && |drawn| == |steps| && dbs[0].offerings == map[] && dbs[0].plans == map[]
    && forall i: nat | i < |steps| :: StepAt(dbs, steps, drawn, i)
  }

  ghost predicate StepAt(dbs: seq<Db>, steps: seq<Step>, drawn: seq<ID>, i: nat)
    requires |dbs| == |steps| + 1 && |drawn| == |steps| && i < |steps|
  {
    Follows(dbs[i], steps[i], drawn[i], dbs[i + 1])
  }

  lemma FollowsRight(db: Db, step: Step, drawn: ID, db': Db)
    requires db.Valid() && ReferencesRight(db) && Follows(db, step, drawn, db')
    ensures db'.Valid() && ReferencesRight(db')
  {
    var drawnDb := db.(next := drawn);
    assert drawnDb.Valid() && ReferencesRight(drawnDb);
    StepKeepsReferences(drawnDb, step, db');
  }

  lemma RunRight(dbs: seq<Db>, steps: seq<Step>, drawn: seq<ID>, m: nat)
    requires IsRun(dbs, steps, drawn) && m < |steps| && dbs[m].Valid() && ReferencesRight(dbs[m])
    ensures dbs[m + 1].Valid() && ReferencesRight(dbs[m + 1])
  {
    assert StepAt(dbs, steps, drawn, m);
    FollowsRight(dbs[m], steps[m], drawn[m], dbs[m + 1]);
  }

  /** Over every run each offering has exactly one reference plan when some plan supports sharing, and none otherwise. */
  lemma {:induction false} ReferencesAlwaysRight(dbs: seq<Db>, steps: seq<Step>, drawn: seq<ID>, i: nat)
    requires IsRun(dbs, steps, drawn) && i < |dbs|
    ensures dbs[i].Valid() && ReferencesRight(dbs[i])
  {
    if i > 0 {
      ReferencesAlwaysRight(dbs, steps, drawn, i - 1);
      RunRight(dbs, steps, drawn, i - 1);
    }
  }

  lemma FollowsKeeps(db: Db, step: Step, drawn: ID, db': Db, brokerID: ID, c: CatalogID, k: ID)
    requires db.Valid() && Follows(db, step, drawn, db') && KeepsSharing(step, brokerID, c)
    requires ReferenceOf(db.offerings, db.plans, brokerID, c, k)
    ensures ReferenceOf(db'.offerings, db'.plans, brokerID, c, k) && db'.plans[k].catalogID == db.plans[k].catalogID
  {
    ReferenceKept(db.(next := drawn), step, db', brokerID, c, k);
  }

  lemma RunKeeps(dbs: seq<Db>, steps: seq<Step>, drawn: seq<ID>, m: nat, brokerID: ID, c: CatalogID, k: ID)
    requires IsRun(dbs, steps, drawn) && m < |steps| && KeepsSharing(steps[m], brokerID, c)
    requires ReferenceOf(dbs[m].offerings, dbs[m].plans, brokerID, c, k)
    ensures ReferenceOf(dbs[m + 1].offerings, dbs[m + 1].plans, brokerID, c, k)
    ensures dbs[m + 1].plans[k].catalogID == dbs[m].plans[k].catalogID
  {
    ReferencesAlwaysRight(dbs, steps, drawn, m);
    assert StepAt(dbs, steps, drawn, m);
    FollowsKeeps(dbs[m], steps[m], drawn[m], dbs[m + 1], brokerID, c, k);
  }

  /** A reference plan keeps its stored id and its catalog id for as long as successive catalogs keep a shareable plan in
      its offering. */
  lemma {:induction false} ReferenceLasts(dbs: seq<Db>, steps: seq<Step>, drawn: seq<ID>, i: nat, j: nat,
                                          brokerID: ID, c: CatalogID, k: ID)
    requires IsRun(dbs, steps, drawn) && i <= j < |dbs|
    requires ReferenceOf(dbs[i].offerings, dbs[i].plans, brokerID, c, k)
    requires forall m | i <= m < j :: KeepsSharing(steps[m], brokerID, c)
    ensures ReferenceOf(dbs[j].offerings, dbs[j].plans, brokerID, c, k)
    ensures dbs[j].plans[k].catalogID == dbs[i].plans[k].catalogID
    decreases j - i
  {
    if i < j {
      ReferenceLasts(dbs, steps, drawn, i, j - 1, brokerID, c, k);
      RunKeeps(dbs, steps, drawn, j - 1, brokerID, c, k);
    }
  }
}
