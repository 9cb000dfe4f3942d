# Connection lifecycle of the CiviCRM site/app RPC library, in Dafny

This project models the part of the `Civi\Cxn\Rpc` library that manages connections between a site and a remote app:

- `RegistrationClient` runs the registration handshake from the site's side.
  - `register` checks the app's metadata and, when a CA is configured, its certificate.
  - It then reuses or creates the app's connection record and stores it before contacting the app.
  - It sends the app a `Cxn.register` call in a registration envelope.
  - It accepts the answer only from the same connection and reports `(cxnId, isOk)`.
- `unregister` looks the app up and tells it `Cxn.unregister`. It always drops the local record, and it re-raises a captured error only after the removal.
- `ApiClient::call` sends `[entity, action, params]` over its bound connection in a standard envelope. It sorts the decoded reply into four cases: garbled, a standard message from another connection, a standard message from its own connection, or any other type.

Files:

- `types.dfy` (module `Types`) holds the data model:
  - connection record `Cxn` and app metadata `AppMeta`;
  - message payloads as PHP values (`Value`);
  - the requests sent (`RegRequest`, `StdRequest`);
  - replies as the transport and the decoder deliver them (`Reply`, `Message`);
  - the closed error set (`Error`);
  - PHP's truthiness of the CA setting and its loose `is_error == 0` test.
- `store.dfy` (module `Store`) holds the connection store, `CxnStore`, a class over a map from connection id to record. `KeyedById` says each record sits under its own id; the site-side invariant `Consistent` adds that no two records share an app. The file also holds `LookupApp` (`getByAppId`) and lemmas on adding and removing records.
- `registration.dfy` (module `Registration`) holds:
  - the class `RegistrationClient` with `Register`, `Unregister` and `DoCall`;
  - the functions that specify them (`Prepare`, `Bind`, `Acknowledge`);
  - the lemmas on the store the handshake leaves behind.
- `api.dfy` (module `Api`) holds the class `ApiClient` with `Call`, and the functions `Classify` and `Respond` that specify its reply handling.

Collaborators the core only calls become inputs:

- The three validators (`AppMeta::validate`, `CA::validate`, `Cxn::validate`) are the predicates in a `Validators` value.
- The fresh connection id and secret are parameters.
- What the HTTP round trip and the decoder yield is a `Reply` parameter.
- Each method returns the envelope it sends (`sent`). This lets a contract say where the request went, what it carried, and when no request was made at all.

Two behaviours of the code worth noting:

- A `register` reply from another connection raises a plain `\RuntimeException` ("Received response from incorrect connection.") in `doCall`. It does not raise an invalid-message error; this is `Error.Runtime`.
- `unregister` sends its call to the app URL held in the stored record, not to the one in the metadata.

## Model

| member | source | states |
|---|---|---|
| `Types.CaConfigured` | src/RegistrationClient.php:54 | `if ($this->caCert)`: no CA certificate, `""` or `"0"` leaves validation off, while any text of two characters or more, such as a PEM certificate, switches it on |
| `Types.Field` | src/RegistrationClient.php:73 | `$respData['is_error']` reads the entry of a dictionary payload, and NULL for a payload that is not a dictionary |
| `Types.LooselyZero` | src/RegistrationClient.php:73 | PHP's `== 0`: an integer only when it is 0, a boolean only when false, NULL always, an array never, and a string only as `"0"` |
| `Types.Succeeded` | src/RegistrationClient.php:117 | `$respCode == 200 && $respData['is_error'] == 0`: success needs status 200. Under 200, a reply with no `is_error` (or data that is not a dictionary) succeeds, an integer `is_error` succeeds exactly when it is 0, and `is_error = true` never does |
| `Store.LookupApp` | src/RegistrationClient.php:58 | `getByAppId` finds a stored record of that app, stored under its own id, and finds nothing exactly when no record belongs to the app |
| `Store.LookupAppFinds` | src/RegistrationClient.php:88 | in a consistent store, the lookup by app returns precisely the record stored for that app |
| `Store.UpsertKeepsConsistent` | src/RegistrationClient.php:70 | adding a record whose app has no record under another id keeps one record per app, and the lookup by that app then finds the added record |
| `Store.UpsertKeepsOtherApps` | src/RegistrationClient.php:70 | adding a new record, or one replacing its own app's record, leaves every other app's lookup unchanged |
| `Store.RemoveKeepsConsistent` | src/RegistrationClient.php:111 | removing an app's record leaves no record for that app and every other app's lookup unchanged |
| `Store.AppStoreWithTwoSites` | src/ApiClient.php:50 | an app connected to two sites holds two records under its own appId: such a store is keyed by connection id, which is all `call` needs, but has more than one record per app |
| `Store.CxnStore.GetByCxnId` | src/ApiClient.php:50 | `getByCxnId` finds a record exactly when one is stored under the id, and the record found carries that id |
| `Store.CxnStore.Add` | src/RegistrationClient.php:70 | `add` stores the record under its id, replacing any record there, and keeps one record per app |
| `Store.CxnStore.Remove` | src/RegistrationClient.php:111 | `remove` drops the record under the id and nothing else |
| `Registration.NoCaSkipsCertCheck` | src/RegistrationClient.php:53-56 | with no CA configured, the certificate is not consulted: admission depends on the metadata check alone |
| `Registration.Prepare` | src/RegistrationClient.php:58-68 | the record to persist keeps an existing record's cxnId and secret, or takes the fresh ones when the app has none; appId is the app's, appUrl and perm come from the metadata, siteUrl from the client |
| `Registration.Bind` | src/RegistrationClient.php:167-173 | `doCall` yields the status and data exactly when the reply was delivered and decoded with the record's cxnId; a reply under any other cxnId raises "Received response from incorrect connection.", a transport failure gives the transport error, and decoder errors pass through |
| `Registration.Acknowledge` | src/RegistrationClient.php:72-79 | the result is `(cxnId, status == 200 && is_error == 0)` exactly when the reply is bound to the record's connection, otherwise the error of `doCall`; `isOk` implies status 200 |
| `Registration.RegisterKeepsOneRecordPerApp` | src/RegistrationClient.php:58-70 | after `register` stores its record: the store is still consistent; the app's lookup finds that record; other apps are unaffected; a new app adds exactly the fresh id and a known app adds no key |
| `Registration.ReRegisterKeepsIdentity` | src/RegistrationClient.php:58-70 | registering the same app twice keeps the cxnId and secret of the first registration, takes appUrl, siteUrl and perm from the second, and adds no record |
| `Registration.UnregisterUndoesRegister` | src/RegistrationClient.php:58-111 | registering a new app and then removing the record its lookup finds gives back the original store |
| `Registration.UnregisterAsWritten` | src/RegistrationClient.php:99-115 | as the catch clause is written, a failure in the guarded block leaves the store as it was, and only a completed call removes the record |
| `Registration.AsWrittenKeepsStaleRecord` | src/RegistrationClient.php:106-111 | as written, for every stored record and every reply decoded under another cxnId, the store keeps the record, unlike the store `Unregister` leaves, and the caller sees the runtime error |
| `Registration.RegistrationClient.constructor` | src/RegistrationClient.php:39-45 | the client holds the given CA certificate, store and site URL |
| `Registration.RegistrationClient.Register` | src/RegistrationClient.php:52-80 | invalid metadata, or a rejected certificate when a CA is configured, fails with nothing stored and nothing sent. An invalid record fails the same way. Otherwise the prepared record is stored before the `Cxn.register` envelope goes to its appUrl. The result is `Acknowledge` of the reply, and the record stays whatever the reply |
| `Registration.RegistrationClient.Unregister` | src/RegistrationClient.php:87-118 | an app with no record gives `(NULL, NULL)` with nothing sent and the store unchanged. Otherwise the app's record, and only it, is removed in every case. A rejected certificate fails with no call made. Else the `Cxn.unregister` envelope goes to the record's appUrl and the result is `Acknowledge` of the reply, any error being raised after the removal |
| `Registration.RegistrationClient.DoCall` | src/RegistrationClient.php:157-174 | the envelope goes to the record's appUrl, addressed to its appId, sealed for the app's certificate, and carries the record, entity, action and params; the result is `Bind` of the reply |
| `Api.Classify` | src/ApiClient.php:56-69 | data is returned exactly for a standard message bound to the client's connection, and it is that message's data. A garbled message, and only that, gives the garbled-message error. A foreign cxnId gives "Received response from incorrect connection.". Any other type gives "Unrecognized message type." |
| `Api.Respond` | src/ApiClient.php:53-69 | `call` returns data exactly when a standard reply from the bound connection was delivered. A transport failure and a decoder error propagate. A delivered message is classified by `Classify` |
| `Api.CrossConnectionReplyRefused` | src/ApiClient.php:60-63 | a correctly decoded standard reply carrying another connection's id is refused with the invalid-message error, and any accepted reply is a standard message of the bound connection |
| `Api.ApiClient.constructor` | src/ApiClient.php:29-34 | the client holds the given metadata and store, and is bound to the given cxnId |
| `Api.ApiClient.Call` | src/ApiClient.php:44-70 | the request goes to the bound record's siteUrl under the record's cxnId and secret. Its payload is `[entity, action, params]`. The result is `Respond` for the bound cxnId. The method has no `modifies` clause, so the store is only read |

## Left out

- HTTP transport (`Http\PhpHttp`, `send`, `getHttp`/`setHttp`): I/O. Its result, after decoding, is the `Reply` parameter of each method.
- Logging (`NullLogger`, `log->info`, `log->debug`, `getLog`/`setLog`): it has no effect on behaviour.
- X.509 handling (`File_X509`, `loadX509`, `getPublicKey`) and `CA::validate`: foreign library code. The registration envelope records the PEM certificate it is sealed for, and CA validation is the `certOk` predicate. A certificate that cannot be loaded inside `doCall` is not a separate case; it is folded into the reply.
- Message cryptography and encoding (`RegistrationMessage::encode`, `StdMessage::encode`/`decode`, `Agent::decode`, `createSecret`, `Cxn::createId`): these are cryptographic and are not shown. Envelopes are records of what they carry, and ids and secrets are opaque fresh values.
- Internals of `AppMeta::validate` and `Cxn::validate`: they are not shown, so they are the opaque predicates `metaOk` and `cxnOk`.
- The concrete store implementations behind `CxnStoreInterface` are not part of this model. The store is a map with each record under its own id. `Register` and `Unregister`, which run on the site's side, also assume one record per app on entry. `Call` and `GetByCxnId` assume only that records sit under their own ids, so an app's store with one record per connected site is admitted.
- Registration.RegistrationClient.Register: requires the fresh connection id not to be in the store. This models `Cxn::createId` as never colliding, which the source assumes of a random id.
- Api.ApiClient.Call: requires the bound connection to be in the store. Given an unknown id, the source would go on with NULL id, secret and URL; that case is not modelled.
- Types.LooselyZero: PHP's `== 0` on strings is modelled only for `"0"`. Other numeric spellings ("0.0", " 0") and the PHP 7 rule that makes a non-numeric string equal 0 are not modelled. Reading `is_error` from a string payload counts as NULL. `Value` has no floats, so an `is_error` of `0.0`, which PHP counts as zero, cannot be expressed.
- Registration.Bind: connection ids are compared as strings. PHP's `!=` at src/RegistrationClient.php:169 compares two numeric strings as numbers, so `"1"` and `"01"` would match. The model assumes ids from `Cxn::createId` are never numeric strings.
- Api.Classify: the same string comparison of connection ids, for the `!=` at src/ApiClient.php:61, under the same assumption.
- Concurrent re-registration of the same app: this is a concurrency concern, outside a sequential model.
- `ApiClient`'s `appMeta` field is held as in the source; `call` does not use it.

## Findings

| source | as written | input that shows it | evidently intended | confidence | as-written member | corrected member |
|---|---|---|---|---|---|---|
| src/RegistrationClient.php:106 | the file is in namespace `Civi\Cxn\Rpc`, so `catch (Exception $e2)` catches only `Civi\Cxn\Rpc\Exception`. The `\RuntimeException` of line 171 and an `InvalidCertException` escape before line 111 removes the record | unregistering app `app-1` (record `cxn-1`) when the app's reply decodes under cxnId `cxn-2`: the record stays and the runtime error propagates | catch every exception (`\Exception`), remove the record, then re-raise, as the comment on line 107 says | medium, not executed (assumes no class named `Civi\Cxn\Rpc\Exception` exists) | Registration.AsWrittenKeepsStaleRecord | Registration.RegistrationClient.Unregister |
