/** Stored service offerings and plans, and what it means to replace a catalog. */
module CatalogTypes {
  import opened Wrappers

  /** Stored ids are handed out in increasing order, as new UUIDs would be new. */
  type ID = nat

  /** An id from a broker's catalog, or one the Service Manager generated for a plan of its own. */
  datatype CatalogID = Given(text: string) | Generated(id: ID)

  datatype Content = Content(name: string, description: string, bindable: Option<bool>, shareable: bool)

  /** An offering, whose parent is its broker, or a plan, whose parent is its offering. */
  datatype Row = Row(catalogID: CatalogID, parent: ID, createdAt: int, content: Content)

  type Table = map<ID, Row>

  type Key = (ID, CatalogID)

  function KeyOf(r: Row): Key {
    (r.parent, r.catalogID)
  }

  /** The unique constraints on (broker_id, catalog_id) and (service_offering_id, catalog_id). */
  ghost predicate Unique(t: Table) {
    forall k, l | k in t && l in t && KeyOf(t[k]) == KeyOf(t[l]) :: k == l
  }

  ghost predicate Distinct(rows: set<Row>) {
    forall v, w | v in rows && w in rows && KeyOf(v) == KeyOf(w) :: v == w
  }

  predicate HasKey(t: Table, key: Key) {
    exists k | k in t :: KeyOf(t[k]) == key
  }

  predicate Wants(rows: set<Row>, key: Key) {
    exists w | w in rows :: KeyOf(w) == key
  }

  // ----- the specification -----

  /** w is stored under the id k: an old id with its creation time if its key was there, else a new one. */
  ghost predicate StoredAs(before: Table, after: Table, w: Row, next: ID, k: ID) {
    && k in after && after[k] == w.(createdAt := after[k].createdAt)
    && (HasKey(before, KeyOf(w)) ==> k in before && KeyOf(before[k]) == KeyOf(w) && after[k].createdAt == before[k].createdAt)
    && (!HasKey(before, KeyOf(w)) ==> k >= next && after[k].createdAt == w.createdAt)
  }

  ghost predicate Stored(before: Table, after: Table, w: Row, next: ID) {
    exists k :: StoredAs(before, after, w, next, k)
  }

  /** The rows below some parents were replaced by the wanted ones: the stored rows and the wanted ones correspond by key,
      survivors keep id and creation time, and nothing else changed. */
  ghost predicate Replaced(before: Table, after: Table, wanted: set<Row>, parents: set<ID>, next: ID) {
    && Unique(after)
    && (forall w | w in wanted :: Stored(before, after, w, next))
    && (forall k | k in after && after[k].parent in parents :: Wants(wanted, KeyOf(after[k])))
    && (forall k | k in before && before[k].parent !in parents :: k in after && after[k] == before[k])
    && (forall k | k in after && after[k].parent !in parents :: k in before && after[k] == before[k])
  }

  // ----- how the resync gets there: update what is there, delete what is not wanted, create what is missing -----

  /** The rows in done have been written over the rows with their key. */
  ghost predicate Updated(before: Table, t: Table, done: set<Row>) {
    && t.Keys == before.Keys
    && forall k | k in before ::
         if Wants(done, KeyOf(before[k])) then exists w | w in done :: KeyOf(w) == KeyOf(before[k]) && t[k] == w.(createdAt := before[k].createdAt)
         else t[k] == before[k]
  }

  /** The wanted rows that have no row with their key. */
  function Missing(before: Table, done: set<Row>): set<Row> {
    set w | w in done && !HasKey(before, KeyOf(w))
  }

  /** The rows below some parents that nothing wanted has the key of. */
  function Leftover(before: Table, done: set<Row>, parents: set<ID>): set<ID> {
    set k | k in before && before[k].parent in parents && !Wants(done, KeyOf(before[k]))
  }

  lemma UpdatedStart(t: Table)
    ensures Updated(t, t, {}) && Missing(t, {}) == {}
  {
  }

  lemma UpdatedKeys(before: Table, t: Table, done: set<Row>)
    requires Updated(before, t, done)
    ensures forall k | k in before :: KeyOf(t[k]) == KeyOf(before[k]) && t[k].createdAt == before[k].createdAt
  {
  }

  lemma UpdateOne(before: Table, t: Table, done: set<Row>, w: Row, k: ID)
    requires Unique(before) && Updated(before, t, done) && k in before && KeyOf(before[k]) == KeyOf(w)
    requires !Wants(done, KeyOf(w))
    ensures Updated(before, t[k := w.(createdAt := before[k].createdAt)], done + {w})
    ensures Missing(before, done + {w}) == Missing(before, done)
  {
    var t', done' := t[k := w.(createdAt := before[k].createdAt)], done + {w};
    forall l | l in before && Wants(done', KeyOf(before[l]))
      ensures exists v | v in done' :: KeyOf(v) == KeyOf(before[l]) && t'[l] == v.(createdAt := before[l].createdAt)
    {
      if l == k {
        assert w in done';
      } else {
        var u :| u in done' && KeyOf(u) == KeyOf(before[l]);
        assert u in done;
        var v :| v in done && KeyOf(v) == KeyOf(before[l]) && t[l] == v.(createdAt := before[l].createdAt);
        assert v in done';
      }
    }
    forall l | l in before && !Wants(done', KeyOf(before[l])) ensures t'[l] == before[l] {
      assert w in done' && l != k;
      assert forall v | v in done :: v in done';
    }
  }

  lemma MissOne(before: Table, t: Table, done: set<Row>, w: Row)
    requires Updated(before, t, done) && !HasKey(before, KeyOf(w))
    ensures Updated(before, t, done + {w}) && Missing(before, done + {w}) == Missing(before, done) + {w}
  {
    forall l | l in before ensures Wants(done + {w}, KeyOf(before[l])) == Wants(done, KeyOf(before[l])) {
      if Wants(done + {w}, KeyOf(before[l])) {
        var v :| v in done + {w} && KeyOf(v) == KeyOf(before[l]);
        assert v in done;
      }
    }
    forall l | l in before && Wants(done + {w}, KeyOf(before[l]))
      ensures exists v | v in done + {w} :: KeyOf(v) == KeyOf(before[l]) && t[l] == v.(createdAt := before[l].createdAt)
    {
      var v :| v in done && KeyOf(v) == KeyOf(before[l]) && t[l] == v.(createdAt := before[l].createdAt);
      assert v in done + {w};
    }
  }

  /** The created rows are the missing ones, each once and under a new id. */
  ghost predicate Creates(created: Table, missing: set<Row>, next: ID) {
    && (forall k | k in created :: k >= next && created[k] in missing)
    && (forall k, l | k in created && l in created && created[k] == created[l] :: k == l)
    && (forall w | w in missing :: exists k | k in created :: created[k] == w)
  }

  lemma CreateOne(created: Table, missing: set<Row>, next: ID, k: ID, w: Row)
    requires Creates(created, missing, next) && k >= next && k !in created && w !in missing
    ensures Creates(created[k := w], missing + {w}, next)
  {
    var created' := created[k := w];
    forall v | v in missing + {w} ensures exists l | l in created' :: created'[l] == v {
      if v == w {
        assert created'[k] == v;
      } else {
        var l :| l in created && created[l] == v;
        assert created'[l] == v;
      }
    }
  }

  /** The three steps together replace the rows. */
  ghost predicate Steps(before: Table, updated: Table, created: Table, wanted: set<Row>, parents: set<ID>, next: ID) {
    && Unique(before) && Distinct(wanted) && Updated(before, updated, wanted)
    && (forall k | k in before :: k < next)
    && (forall w | w in wanted :: w.parent in parents)
    && Creates(created, Missing(before, wanted), next)
  }

  ghost function Result(before: Table, updated: Table, created: Table, wanted: set<Row>, parents: set<ID>): Table {
    (updated - Leftover(before, wanted, parents)) + created
  }

  lemma ResultStored(before: Table, updated: Table, created: Table, wanted: set<Row>, parents: set<ID>, next: ID, w: Row)
    requires Steps(before, updated, created, wanted, parents, next) && w in wanted
    ensures Stored(before, Result(before, updated, created, wanted, parents), w, next)
  {
    var after := Result(before, updated, created, wanted, parents);
    if HasKey(before, KeyOf(w)) {
      var k :| k in before && KeyOf(before[k]) == KeyOf(w);
      assert Wants(wanted, KeyOf(before[k]));
      var v :| v in wanted && KeyOf(v) == KeyOf(before[k]) && updated[k] == v.(createdAt := before[k].createdAt);
      assert v == w && after[k] == updated[k];
      assert StoredAs(before, after, w, next, k);
    } else {
      assert w in Missing(before, wanted);
      var k :| k in created && created[k] == w;
      assert StoredAs(before, after, w, next, k);
    }
  }

  lemma ResultUnique(before: Table, updated: Table, created: Table, wanted: set<Row>, parents: set<ID>, next: ID)
    requires Steps(before, updated, created, wanted, parents, next)
    ensures Unique(Result(before, updated, created, wanted, parents))
  {
    var after := Result(before, updated, created, wanted, parents);
    UpdatedKeys(before, updated, wanted);
    assert forall k, l | k in created && l in before :: KeyOf(before[l]) != KeyOf(created[k]);
    forall k, l | k in after && l in after && KeyOf(after[k]) == KeyOf(after[l]) ensures k == l {
      if k in created && l in created {
        assert created[k] == created[l];
      }
    }
  }

  lemma ResultWanted(before: Table, updated: Table, created: Table, wanted: set<Row>, parents: set<ID>, next: ID, k: ID)
    requires Steps(before, updated, created, wanted, parents, next)
    requires k in Result(before, updated, created, wanted, parents)
    ensures var after := Result(before, updated, created, wanted, parents);
            if after[k].parent in parents then Wants(wanted, KeyOf(after[k])) else k in before && after[k] == before[k]
  {
    UpdatedKeys(before, updated, wanted);
    if k in created {
      assert created[k] in wanted;
    } else {
      assert before[k].parent !in parents ==> !Wants(wanted, KeyOf(before[k]));
    }
  }

  lemma StepsReplace(before: Table, updated: Table, created: Table, wanted: set<Row>, parents: set<ID>, next: ID)
    requires Steps(before, updated, created, wanted, parents, next)
    ensures Replaced(before, Result(before, updated, created, wanted, parents), wanted, parents, next)
  {
    var after := Result(before, updated, created, wanted, parents);
    ResultUnique(before, updated, created, wanted, parents, next);
    forall w | w in wanted ensures Stored(before, after, w, next) {
      ResultStored(before, updated, created, wanted, parents, next, w);
    }
    forall k | k in after
      ensures if after[k].parent in parents then Wants(wanted, KeyOf(after[k])) else k in before && after[k] == before[k]
    {
      ResultWanted(before, updated, created, wanted, parents, next, k);
    }
    UpdatedKeys(before, updated, wanted);
    forall k | k in before && before[k].parent !in parents ensures k in after && after[k] == before[k] {
      assert k in after && k !in created && KeyOf(after[k]) == KeyOf(before[k]);
    }
  }

  /** The specification leaves nothing open but the choice of new ids: two results agree on every key, and on the ids of
      the survivors. */
  lemma ReplacedAgree(before: Table, a: Table, b: Table, wanted: set<Row>, parents: set<ID>, next: ID, k: ID)
    requires Unique(before) && Distinct(wanted)
    requires Replaced(before, a, wanted, parents, next) && Replaced(before, b, wanted, parents, next) && k in a
    ensures exists l :: l in b && b[l] == a[k] && (k in before && HasKey(before, KeyOf(a[k])) ==> l == k)
  {
    if a[k].parent in parents {
      var w :| w in wanted && KeyOf(w) == KeyOf(a[k]);
      var i :| StoredAs(before, a, w, next, i);
      var j :| StoredAs(before, b, w, next, j);
      assert i == k;
      assert b[j] == a[k];
    } else {
      assert b[k] == a[k];
    }
  }
}
