/** The registration handshake run by a site: `register` creates or
    refreshes the connection record of an app and announces it to the app;
    `unregister` tells the app and drops the record. */
module Registration {
  import opened Types
  import opened Store

  /** The checks the handshake delegates to code outside the core */
  datatype Validators = Validators(
    metaOk: AppMeta -> bool,     // AppMeta::validate
    certOk: (Pem, Pem) -> bool,  // CA::validate(caCert, appCert)
    cxnOk: Cxn -> bool)          // Cxn::validate

  /** What `register` and `unregister` return: `(cxnId, isOk)`, or
      `(NULL, NULL)` when there is no connection to unregister. */
  datatype Ack = NoCxn | Ack(cxnId: CxnId, ok: bool)

  /** A CA is configured and it does not vouch for the app's certificate */
  predicate CertRejected(caCert: Option<Pem>, v: Validators, meta: AppMeta) {
    CaConfigured(caCert) && !v.certOk(caCert.value, meta.appCert)
  }

  /** The app passes the checks `register` makes before touching the store */
  predicate Admitted(caCert: Option<Pem>, v: Validators, meta: AppMeta) {
    v.metaOk(meta) && !CertRejected(caCert, v, meta)
  }

  /** Without a CA, registration depends on the metadata check alone. */
  lemma NoCaSkipsCertCheck(caCert: Option<Pem>, v: Validators, meta: AppMeta)
    requires !CaConfigured(caCert)
    ensures Admitted(caCert, v, meta) <==> v.metaOk(meta)
  {
  }

  /** The record `register` persists: the app's existing record with its id
      and secret, or a new one with the fresh id and secret, in both cases
      with the app URL and permissions of the metadata and the site's URL. */
  function Prepare(existing: Option<Cxn>, meta: AppMeta, siteUrl: Url,
                   freshId: CxnId, freshSecret: Secret): (c: Cxn)
    requires existing.Some? ==> existing.value.appId == meta.appId
    ensures c.appId == meta.appId
    ensures c.appUrl == meta.appUrl && c.siteUrl == siteUrl && c.perm == meta.perm
    ensures existing.Some? ==> c.cxnId == existing.value.cxnId && c.secret == existing.value.secret
    ensures existing.None? ==> c.cxnId == freshId && c.secret == freshSecret
  {
    var base := if existing.Some? then existing.value else Cxn(freshId, freshSecret, meta.appId, "", "", Null);
    base.(appUrl := meta.appUrl, siteUrl := siteUrl, perm := meta.perm)
  }

  /** The outcome of `doCall`: the reply's status and data, provided it was
      delivered, decoded, and comes from the connection it was sent over. */
  function Bind(cxnId: CxnId, reply: Reply<(CxnId, Value)>): (r: Result<(int, Value), Error>)
    ensures r.Success? <==> reply.Delivered? && reply.message.0 == cxnId
    ensures r.Success? ==> r.value == (reply.code, reply.message.1)
    ensures reply.Delivered? && reply.message.0 != cxnId ==> r == Failure(Runtime(IncorrectConnectionText))
    ensures reply.NotDelivered? ==> r == Failure(TransportFailure)
    ensures reply.Undecodable? ==> r == Failure(reply.error)
  {
    match reply
    case NotDelivered => Failure(TransportFailure)
    case Undecodable(e) => Failure(e)
    case Delivered(code, (respCxnId, data)) =>
      if respCxnId != cxnId then Failure(Runtime(IncorrectConnectionText)) else Success((code, data))
  }

  /** What `register` and a completed `unregister` return for record c */
  function Acknowledge(c: Cxn, reply: Reply<(CxnId, Value)>): (r: Result<Ack, Error>)
    ensures r.Success? <==> reply.Delivered? && reply.message.0 == c.cxnId
    ensures r.Success? ==> r.value == Ack(c.cxnId, Succeeded(reply.code, reply.message.1))
    ensures r.Success? && r.value.ok ==> reply.code == 200
    ensures r.Failure? ==> r.error == Bind(c.cxnId, reply).error
  {
    match Bind(c.cxnId, reply)
    case Failure(e) => Failure(e)
    case Success((code, data)) => Success(Ack(c.cxnId, Succeeded(code, data)))
  }

  /** Registering an app leaves exactly one record for it, holding the
      prepared record, and every other app's record where it was; a new app
      adds one record, a known app adds none. */
  lemma {:induction false} RegisterKeepsOneRecordPerApp(m: map<CxnId, Cxn>, meta: AppMeta, siteUrl: Url,
                                                       freshId: CxnId, freshSecret: Secret)
    requires Consistent(m)
    requires freshId !in m
    ensures var c := Prepare(LookupApp(m, meta.appId), meta, siteUrl, freshId, freshSecret);
            var m' := m[c.cxnId := c];
            && Consistent(m')
            && LookupApp(m', meta.appId) == Some(c)
            && (forall a :: a != meta.appId ==> LookupApp(m', a) == LookupApp(m, a))
            && (LookupApp(m, meta.appId).Some? ==> m'.Keys == m.Keys)
            && (LookupApp(m, meta.appId).None? ==> m'.Keys == m.Keys + {freshId})
  {
    var existing := LookupApp(m, meta.appId);
    var c := Prepare(existing, meta, siteUrl, freshId, freshSecret);
    UpsertKeepsConsistent(m, c);
    forall a | a != meta.appId
      ensures LookupApp(m[c.cxnId := c], a) == LookupApp(m, a)
    {
      UpsertKeepsOtherApps(m, c, a);
    }
  }

  /** Registering the same app twice keeps the connection id and secret of
      the first registration and takes the URLs and permissions of the
      second; the store gains no record the second time. */
  lemma {:induction false} ReRegisterKeepsIdentity(m: map<CxnId, Cxn>, meta1: AppMeta, meta2: AppMeta,
                                                  siteUrl1: Url, siteUrl2: Url,
                                                  id1: CxnId, secret1: Secret, id2: CxnId, secret2: Secret)
    requires Consistent(m)
    requires id1 !in m
    requires meta2.appId == meta1.appId
    ensures var c1 := Prepare(LookupApp(m, meta1.appId), meta1, siteUrl1, id1, secret1);
            var m1 := m[c1.cxnId := c1];
            && Consistent(m1)
            && var c2 := Prepare(LookupApp(m1, meta2.appId), meta2, siteUrl2, id2, secret2);
               && c2.cxnId == c1.cxnId && c2.secret == c1.secret
               && c2.appUrl == meta2.appUrl && c2.siteUrl == siteUrl2 && c2.perm == meta2.perm
               && m1[c2.cxnId := c2].Keys == m1.Keys
  {
    RegisterKeepsOneRecordPerApp(m, meta1, siteUrl1, id1, secret1);
  }

  /** Registering a new app and then unregistering it gives back the store
      it started from. */
  lemma {:induction false} UnregisterUndoesRegister(m: map<CxnId, Cxn>, meta: AppMeta, siteUrl: Url,
                                                   freshId: CxnId, freshSecret: Secret)
    requires Consistent(m)
    requires freshId !in m
    requires LookupApp(m, meta.appId) == None
    ensures var c := Prepare(None, meta, siteUrl, freshId, freshSecret);
            var m' := m[c.cxnId := c];
            && Consistent(m')
            && LookupApp(m', meta.appId) == Some(c)
            && m' - {LookupApp(m', meta.appId).value.cxnId} == m
  {
    RegisterKeepsOneRecordPerApp(m, meta, siteUrl, freshId, freshSecret);
  }

  /** `unregister` as line 106 of src/RegistrationClient.php is written.
      Inside namespace Civi\Cxn\Rpc the unqualified
      `catch (Exception $e2)` names Civi\Cxn\Rpc\Exception, a
      class neither InvalidCertException nor \RuntimeException belongs to,
      so an error raised in the guarded block leaves the method before the
      record is removed. `guarded` is the outcome of that block. */
  function UnregisterAsWritten(m: map<CxnId, Cxn>, c: Cxn, guarded: Result<(int, Value), Error>)
    : (out: (map<CxnId, Cxn>, Result<Ack, Error>))
    ensures guarded.Failure? ==> out.0 == m
    ensures guarded.Success? ==> out.0 == m - {c.cxnId}
  {
    match guarded
    case Failure(e) => (m, Failure(e))
    case Success((code, data)) => (m - {c.cxnId}, Success(Ack(c.cxnId, Succeeded(code, data))))
  }

  /** As written, whenever a known app's unregister reply comes from
      another connection, the record stays in the store and the runtime
      error reaches the caller; `RegistrationClient.Unregister` leaves the
      store without that record on the same input. */
  lemma {:induction false} AsWrittenKeepsStaleRecord(m: map<CxnId, Cxn>, c: Cxn, other: CxnId, code: int, data: Value)
    requires c.cxnId in m && m[c.cxnId] == c
    requires other != c.cxnId
    ensures var out := UnregisterAsWritten(m, c, Bind(c.cxnId, Delivered(code, (other, data))));
            && out.0 == m
            && c.cxnId in out.0
            && out.0 != m - {c.cxnId}
            && out.1 == Failure(Runtime(IncorrectConnectionText))
  {
  }

  class RegistrationClient {
    /** CA certificate; NULL (or another falsy string) disables validation */
    const caCert: Option<Pem>
    const cxnStore: CxnStore
    const siteUrl: Url

    ghost predicate Valid()
      reads cxnStore
    {
      cxnStore.Valid()
    }

    constructor (caCert: Option<Pem>, cxnStore: CxnStore, siteUrl: Url)
      ensures this.caCert == caCert && this.cxnStore == cxnStore && this.siteUrl == siteUrl
    {
      this.caCert := caCert;
      this.cxnStore := cxnStore;
      this.siteUrl := siteUrl;
    }

    /** `register`. The fresh id and secret stand for Cxn::createId and
        StdMessage::createSecret; `reply` is what sending the registration
        envelope and decoding the answer gives. `sent` is the envelope
        sent, if the method got that far. */
    method Register(meta: AppMeta, v: Validators, freshId: CxnId, freshSecret: Secret,
                    reply: Reply<(CxnId, Value)>)
      returns (r: Result<Ack, Error>, sent: Option<RegRequest>)
      requires Valid()
      requires freshId !in cxnStore.cxns
      modifies cxnStore
      ensures Valid()
      ensures !v.metaOk(meta) ==> r == Failure(InvalidMetadata)
      ensures v.metaOk(meta) && CertRejected(caCert, v, meta) ==> r == Failure(InvalidCertificate)
      ensures !Admitted(caCert, v, meta) ==> sent == None && cxnStore.cxns == old(cxnStore.cxns)
      ensures Admitted(caCert, v, meta) ==>
        var c := Prepare(LookupApp(old(cxnStore.cxns), meta.appId), meta, siteUrl, freshId, freshSecret);
        if v.cxnOk(c) then
          && cxnStore.cxns == old(cxnStore.cxns)[c.cxnId := c]
          && sent == Some(RegRequest(c.appUrl, c.appId, meta.appCert, c, "Cxn", "register", List([])))
          && r == Acknowledge(c, reply)
        else
          r == Failure(InvalidCxn) && sent == None && cxnStore.cxns == old(cxnStore.cxns)
    {
      if !v.metaOk(meta) {
        return Failure(InvalidMetadata), None;
      }
      if CaConfigured(caCert) && !v.certOk(caCert.value, meta.appCert) {
        return Failure(InvalidCertificate), None;
      }

      var cxn: Cxn;
      var existing := cxnStore.GetByAppId(meta.appId);
      if existing.None? {
        cxn := Cxn(freshId, freshSecret, meta.appId, "", "", Null);
      } else {
        cxn := existing.value;
      }
      cxn := cxn.(appUrl := meta.appUrl);
      cxn := cxn.(siteUrl := siteUrl);
      cxn := cxn.(perm := meta.perm);
      if !v.cxnOk(cxn) {
        return Failure(InvalidCxn), None;
      }
      cxnStore.Add(cxn);

      var resp, req := DoCall(meta, "Cxn", "register", List([]), cxn, reply);
      sent := Some(req);
      match resp {
        case Failure(e) =>
          r := Failure(e);
        case Success((respCode, respData)) =>
          var success := Succeeded(respCode, respData);
          r := Success(Ack(cxn.cxnId, success));
      }
    }

    /** `unregister`. The remote call and the certificate check may fail;
        the record is removed in every case, and the error is raised after
        the removal. */
    method Unregister(meta: AppMeta, v: Validators, reply: Reply<(CxnId, Value)>)
      returns (r: Result<Ack, Error>, sent: Option<RegRequest>)
      requires Valid()
      modifies cxnStore
      ensures Valid()
      ensures LookupApp(old(cxnStore.cxns), meta.appId).None? ==>
        r == Success(NoCxn) && sent == None && cxnStore.cxns == old(cxnStore.cxns)
      ensures LookupApp(old(cxnStore.cxns), meta.appId).Some? ==>
        var c := LookupApp(old(cxnStore.cxns), meta.appId).value;
        && cxnStore.cxns == old(cxnStore.cxns) - {c.cxnId}
        && if CertRejected(caCert, v, meta) then
             r == Failure(InvalidCertificate) && sent == None
           else
             && sent == Some(RegRequest(c.appUrl, c.appId, meta.appCert, c, "Cxn", "unregister", List([])))
             && r == Acknowledge(c, reply)
    {
      var existing := cxnStore.GetByAppId(meta.appId);
      if existing.None? {
        return Success(NoCxn), None;
      }
      var cxn := existing.value;

      // the try block: every error is captured in e instead of being raised,
      // as the try..finally the source simulates intends (the catch clause
      // as written does not match these errors; see UnregisterAsWritten)
      var e: Option<Error> := None;
      var respCode, respData := 0, Null;
      sent := None;
      if CaConfigured(caCert) && !v.certOk(caCert.value, meta.appCert) {
        e := Some(InvalidCertificate);
      } else {
        var resp, req := DoCall(meta, "Cxn", "unregister", List([]), cxn, reply);
        sent := Some(req);
        match resp {
          case Failure(err) => e := Some(err);
          case Success((code, data)) => respCode, respData := code, data;
        }
      }

      cxnStore.Remove(cxn.cxnId);

      if e.Some? {
        return Failure(e.value), sent;
      }
      r := Success(Ack(cxn.cxnId, Succeeded(respCode, respData)));
    }

    /** `doCall`: send `entity.action(params)` in a registration envelope
        to the record's app URL and accept the answer only from the same
        connection. */
    method DoCall(meta: AppMeta, entity: string, action: string, params: Value, cxn: Cxn,
                  reply: Reply<(CxnId, Value)>)
      returns (r: Result<(int, Value), Error>, sent: RegRequest)
      ensures sent.url == cxn.appUrl && sent.appId == cxn.appId && sent.appCert == meta.appCert
      ensures sent.cxn == cxn && sent.entity == entity && sent.action == action && sent.params == params
      ensures r == Bind(cxn.cxnId, reply)
    {
      sent := RegRequest(cxn.appUrl, cxn.appId, meta.appCert, cxn, entity, action, params);
      match reply {
        case NotDelivered =>
          r := Failure(TransportFailure);
        case Undecodable(err) =>
          r := Failure(err);
        case Delivered(respCode, (respCxnId, respData)) =>
          if respCxnId != cxn.cxnId {
            // a reply sealed for another connection
            r := Failure(Runtime(IncorrectConnectionText));
          } else {
            r := Success((respCode, respData));
          }
      }
    }
  }

  /** A site with an empty store and no CA registers app A1; the app echoes
      the new connection. A second registration gets a reply from another
      connection: it fails, and the record stays. */
  method RegisterScenario()
  {
    var store := new CxnStore();
    var client := new RegistrationClient(None, store, "https://site/");
    var v := Validators(_ => true, (_, _) => true, _ => true);
    var meta := AppMeta("A1", "C1", "https://app/", Null);
    var r, sent := client.Register(meta, v, "cxn-1", "secret-1",
                                   Delivered(200, ("cxn-1", Dict(map["is_error" := Int(0)]))));
    assert r == Success(Ack("cxn-1", true));
    assert sent.value.url == "https://app/" && sent.value.entity == "Cxn" && sent.value.action == "register";
    var c1 := store.cxns["cxn-1"];
    LookupAppFinds(store.cxns, c1);
    r, sent := client.Register(meta, v, "cxn-2", "secret-2", Delivered(200, ("cxn-9", Dict(map[]))));
    assert r == Failure(Runtime(IncorrectConnectionText));
    assert store.cxns.Keys == {"cxn-1"} && store.cxns["cxn-1"].secret == "secret-1";
  }
}
