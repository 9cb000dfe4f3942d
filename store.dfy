/** The connection store the clients are given: records keyed by their
    connection id. On the site's side, where registration runs, it holds at
    most one record per application; an app's own store holds one record
    per connected site, all under the app's id. */
module Store {
  import opened Types

  /** Every record sits under its own id. */
  ghost predicate KeyedById(m: map<CxnId, Cxn>) {
    forall id :: id in m ==> m[id].cxnId == id
  }

  /** No two records share an app. */
  ghost predicate OneRecordPerApp(m: map<CxnId, Cxn>) {
    forall id1, id2 :: id1 in m && id2 in m && m[id1].appId == m[id2].appId ==> id1 == id2
  }

  /** The invariant of a site's store */
  ghost predicate Consistent(m: map<CxnId, Cxn>) {
    KeyedById(m) && OneRecordPerApp(m)
  }

  /** An app connected to two sites keeps two records under its own id:
      keyed by connection id, but not one record per app. */
  lemma AppStoreWithTwoSites()
    ensures var m := map["cxn-a" := Cxn("cxn-a", "s1", "app", "https://app/", "https://site1/", Null),
                         "cxn-b" := Cxn("cxn-b", "s2", "app", "https://app/", "https://site2/", Null)];
            KeyedById(m) && !OneRecordPerApp(m)
  {
    var m := map["cxn-a" := Cxn("cxn-a", "s1", "app", "https://app/", "https://site1/", Null),
                 "cxn-b" := Cxn("cxn-b", "s2", "app", "https://app/", "https://site2/", Null)];
    assert m["cxn-a"].appId == m["cxn-b"].appId && "cxn-a" != "cxn-b";
  }

  /** `getByAppId`: the one record of an application, if there is one. */
  function LookupApp(m: map<CxnId, Cxn>, appId: AppId): (r: Option<Cxn>)
    requires Consistent(m)
    ensures r.Some? ==> r.value.appId == appId && r.value.cxnId in m && m[r.value.cxnId] == r.value
    ensures r.None? <==> forall id :: id in m ==> m[id].appId != appId
  {
    if exists id :: id in m && m[id].appId == appId then
      var id :| id in m && m[id].appId == appId;
      Some(m[id])
    else
      None
  }

  /** A stored record is what the lookup by its app finds. */
  lemma LookupAppFinds(m: map<CxnId, Cxn>, c: Cxn)
    requires Consistent(m)
    requires c.cxnId in m && m[c.cxnId] == c
    ensures LookupApp(m, c.appId) == Some(c)
  {
  }

  /** Storing a record whose app has no record under another id keeps the
      store consistent, and makes the record the one found for its app. */
  lemma UpsertKeepsConsistent(m: map<CxnId, Cxn>, c: Cxn)
    requires Consistent(m)
    requires forall id :: id in m && m[id].appId == c.appId ==> id == c.cxnId
    ensures Consistent(m[c.cxnId := c])
    ensures LookupApp(m[c.cxnId := c], c.appId) == Some(c)
  {
    LookupAppFinds(m[c.cxnId := c], c);
  }

  /** When the record either is new or replaces its own app's record, every
      other app finds what it found before. */
  lemma {:induction false} UpsertKeepsOtherApps(m: map<CxnId, Cxn>, c: Cxn, a: AppId)
    requires Consistent(m)
    requires forall id :: id in m && m[id].appId == c.appId ==> id == c.cxnId
    requires c.cxnId in m ==> m[c.cxnId].appId == c.appId
    requires a != c.appId
    ensures Consistent(m[c.cxnId := c])
    ensures LookupApp(m[c.cxnId := c], a) == LookupApp(m, a)
  {
    var m' := m[c.cxnId := c];
    UpsertKeepsConsistent(m, c);
    var before := LookupApp(m, a);
    if before.Some? {
      LookupAppFinds(m', before.value);
    }
  }

  /** Removing an app's record leaves no record for it and leaves the other
      apps' records where they were. */
  lemma {:induction false} RemoveKeepsConsistent(m: map<CxnId, Cxn>, c: Cxn)
    requires Consistent(m)
    requires c.cxnId in m && m[c.cxnId] == c
    ensures Consistent(m - {c.cxnId})
    ensures LookupApp(m - {c.cxnId}, c.appId) == None
    ensures forall a :: a != c.appId ==> LookupApp(m - {c.cxnId}, a) == LookupApp(m, a)
  {
    var m' := m - {c.cxnId};
    forall a | a != c.appId
      ensures LookupApp(m', a) == LookupApp(m, a)
    {
      var before := LookupApp(m, a);
      if before.Some? {
        LookupAppFinds(m', before.value);
      }
    }
  }

  class CxnStore {
    var cxns: map<CxnId, Cxn>

    ghost predicate Valid()
      reads this
    {
      Consistent(cxns)
    }

    constructor ()
      ensures Valid() && cxns == map[]
    {
      cxns := map[];
    }

    /** `getByCxnId` */
    function GetByCxnId(cxnId: CxnId): (r: Option<Cxn>)
      reads this
      requires KeyedById(cxns)
      ensures r.Some? <==> cxnId in cxns
      ensures r.Some? ==> r.value.cxnId == cxnId && cxns[cxnId] == r.value
    {
      if cxnId in cxns then Some(cxns[cxnId]) else None
    }

    /** `getByAppId` */
    function GetByAppId(appId: AppId): (r: Option<Cxn>)
      reads this
      requires Valid()
    {
      LookupApp(cxns, appId)
    }

    /** `add`: insert or replace the record under its connection id */
    method Add(c: Cxn)
      requires Valid()
      requires forall id :: id in cxns && cxns[id].appId == c.appId ==> id == c.cxnId
      modifies this
      ensures Valid()
      ensures cxns == old(cxns)[c.cxnId := c]
    {
      UpsertKeepsConsistent(cxns, c);
      cxns := cxns[c.cxnId := c];
    }

    /** `remove`: drop the record stored under a connection id, if any */
    method Remove(cxnId: CxnId)
      requires Valid()
      modifies this
      ensures Valid()
      ensures cxns == old(cxns) - {cxnId}
    {
      cxns := cxns - {cxnId};
    }
  }
}
