/** Data model shared by the registration handshake and the API client:
    connection records, application metadata, message payloads, the
    requests the clients send, the replies they get back and the errors
    they raise. */
module Types {

  type CxnId = string
  type Secret = string
  type AppId = string
  type Url = string
  /** PEM-encoded X.509 certificate */
  type Pem = string

  datatype Option<T> = None | Some(value: T)

  /** Success, or the exception the source would throw */
  datatype Result<T, E> = Success(value: T) | Failure(error: E)

  /** A PHP value as it travels inside a message: scalars, and arrays as
      either lists or string-keyed dictionaries. */
  datatype Value =
    | Null
    | Bool(b: bool)
    | Int(i: int)
    | Str(s: string)
    | List(items: seq<Value>)
    | Dict(fields: map<string, Value>)

  /** Untrusted description of an application offering to connect */
  datatype AppMeta = AppMeta(appId: AppId, appCert: Pem, appUrl: Url, perm: Value)

  /** The durable trust record of one site/app connection */
  datatype Cxn = Cxn(cxnId: CxnId, secret: Secret, appId: AppId, appUrl: Url, siteUrl: Url, perm: Value)

  const IncorrectConnectionText := "Received response from incorrect connection."
  const UnrecognizedTypeText := "Unrecognized message type."

  /** The exceptions the core raises or lets through */
  datatype Error =
    | InvalidMetadata           // AppMeta::validate
    | InvalidCertificate        // CA::validate (InvalidCertException)
    | InvalidCxn                // Cxn::validate
    | TransportFailure          // the HTTP round trip failed
    | GarbledMessage            // GarbledMessageException
    | InvalidMessage(reason: string)  // InvalidMessageException
    | Runtime(message: string)  // \RuntimeException

  /** Registration envelope: addressed to the app by its id and encrypted
      with the public key of its certificate. */
  datatype RegRequest = RegRequest(url: Url, appId: AppId, appCert: Pem, cxn: Cxn,
                                   entity: string, action: string, params: Value)

  /** Standard envelope: carries the connection id in plain text and the
      payload sealed with the connection's secret. */
  datatype StdRequest = StdRequest(url: Url, cxnId: CxnId, secret: Secret, payload: Value)

  /** A decoded message as the API client sees it */
  datatype Message = Std(cxnId: CxnId, data: Value) | Garbled | OtherType(name: string)

  /** What the transport and the decoder make of one request: the send
      failed, the decoder raised, or a message of type M arrived with an
      HTTP status code. */
  datatype Reply<M> = NotDelivered | Undecodable(error: Error) | Delivered(code: int, message: M)

  /** PHP truthiness of the configured CA certificate: NULL, "" and "0"
      switch certificate validation off; any longer text, such as a PEM
      certificate, switches it on. */
  function CaConfigured(caCert: Option<Pem>): (on: bool)
    ensures caCert.None? ==> !on
    ensures on ==> caCert.Some? && |caCert.value| > 0
    ensures caCert.Some? && |caCert.value| >= 2 ==> on
  {
    caCert.Some? && caCert.value != "" && caCert.value != "0"
  }

  /** `$data[$key]` on a decoded payload: a missing key, or a payload that
      is not a dictionary, reads as NULL. */
  function Field(data: Value, key: string): (v: Value)
    ensures data.Dict? && key in data.fields ==> v == data.fields[key]
    ensures !data.Dict? ==> v == Null
  {
    if data.Dict? && key in data.fields then data.fields[key] else Null
  }

  /** PHP's loose comparison `$v == 0` */
  function LooselyZero(v: Value): (z: bool)
    ensures v.Int? ==> (z <==> v.i == 0)
    ensures v.Bool? ==> (z <==> !v.b)
    ensures v.Null? ==> z
    ensures v.List? || v.Dict? ==> !z
    ensures v.Str? && z ==> v.s == "0"
  {
    match v
    case Null => true
    case Bool(b) => !b
    case Int(i) => i == 0
    case Str(s) => s == "0"
    case List(_) => false
    case Dict(_) => false
  }

  /** `$respCode == 200 && $respData['is_error'] == 0`: a 200 reply
      succeeds unless it carries a non-zero `is_error`; a reply without
      `is_error`, or whose data is not a dictionary, counts as a success. */
  function Succeeded(code: int, data: Value): (ok: bool)
    ensures ok ==> code == 200
    ensures code == 200 && (!data.Dict? || "is_error" !in data.fields) ==> ok
    ensures data.Dict? && "is_error" in data.fields && data.fields["is_error"].Int? ==>
              (ok <==> code == 200 && data.fields["is_error"].i == 0)
    ensures data.Dict? && "is_error" in data.fields && data.fields["is_error"] == Bool(true) ==> !ok
  {
    code == 200 && LooselyZero(Field(data, "is_error"))
  }
}
