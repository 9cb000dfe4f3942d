/** The API client of an established connection: it seals a call in a
    standard envelope, sends it to the site, and accepts only a standard
    reply bound to the same connection. */
module Api {
  import opened Types
  import opened Store

  /** How `call` reads a decoded reply, for a client bound to `bound` */
  function Classify(bound: CxnId, msg: Message): (r: Result<Value, Error>)
    ensures r.Success? <==> msg.Std? && msg.cxnId == bound
    ensures r.Success? ==> r.value == msg.data
    ensures r == Failure(GarbledMessage) <==> msg.Garbled?
    ensures msg.Std? && msg.cxnId != bound ==> r == Failure(InvalidMessage(IncorrectConnectionText))
    ensures msg.OtherType? ==> r == Failure(InvalidMessage(UnrecognizedTypeText))
  {
    match msg
    case Garbled => Failure(GarbledMessage)
    case Std(cxnId, data) =>
      if cxnId != bound then Failure(InvalidMessage(IncorrectConnectionText)) else Success(data)
    case OtherType(_) => Failure(InvalidMessage(UnrecognizedTypeText))
  }

  /** The outcome of `call` for what the transport and the decoder gave */
  function Respond(bound: CxnId, reply: Reply<Message>): (r: Result<Value, Error>)
    ensures r.Success? <==> reply.Delivered? && reply.message.Std? && reply.message.cxnId == bound
    ensures r.Success? ==> r.value == reply.message.data
    ensures reply.NotDelivered? ==> r == Failure(TransportFailure)
    ensures reply.Undecodable? ==> r == Failure(reply.error)
    ensures reply.Delivered? ==> r == Classify(bound, reply.message)
  {
    match reply
    case NotDelivered => Failure(TransportFailure)
    case Undecodable(e) => Failure(e)
    case Delivered(_, msg) => Classify(bound, msg)
  }

  /** A reply sealed for another connection is refused even when it
      decoded, whatever it carries and whatever the status code. */
  lemma {:induction false} CrossConnectionReplyRefused(bound: CxnId, other: CxnId, code: int, data: Value)
    requires other != bound
    ensures Respond(bound, Delivered(code, Std(other, data))) == Failure(InvalidMessage(IncorrectConnectionText))
    ensures forall m :: Respond(bound, Delivered(code, m)).Success? ==> m.Std? && m.cxnId == bound
  {
  }

  class ApiClient {
    const appMeta: AppMeta
    const cxnStore: CxnStore
    /** The connection this client is bound to */
    const cxnId: CxnId

    constructor (appMeta: AppMeta, cxnStore: CxnStore, cxnId: CxnId)
      ensures this.appMeta == appMeta && this.cxnStore == cxnStore && this.cxnId == cxnId
    {
      this.appMeta := appMeta;
      this.cxnStore := cxnStore;
      this.cxnId := cxnId;
    }

    /** `call`: send `[entity, action, params]` over the bound connection
        and return the data of the reply. `reply` is what the transport and
        the decoder make of the request; `sent` is the request. The store
        is only read. */
    method Call(entity: string, action: string, params: Value, reply: Reply<Message>)
      returns (r: Result<Value, Error>, sent: StdRequest)
      requires KeyedById(cxnStore.cxns)
      requires cxnId in cxnStore.cxns
      ensures sent.url == cxnStore.cxns[cxnId].siteUrl
      ensures sent.cxnId == cxnId && sent.secret == cxnStore.cxns[cxnId].secret
      ensures sent.payload == List([Str(entity), Str(action), params])
      ensures r == Respond(cxnId, reply)
    {
      var found := cxnStore.GetByCxnId(cxnId);
      var cxn := found.value;
      sent := StdRequest(cxn.siteUrl, cxn.cxnId, cxn.secret, List([Str(entity), Str(action), params]));
      match reply {
        case NotDelivered =>
          r := Failure(TransportFailure);
        case Undecodable(e) =>
          r := Failure(e);
        case Delivered(_, respMessage) =>
          if respMessage.Garbled? {
            r := Failure(GarbledMessage);
          } else if respMessage.Std? {
            if respMessage.cxnId != cxn.cxnId {
              // a reply sealed for another connection
              r := Failure(InvalidMessage(IncorrectConnectionText));
            } else {
              r := Success(respMessage.data);
            }
          } else {
            r := Failure(InvalidMessage(UnrecognizedTypeText));
          }
      }
    }
  }
}
