/**
 * The remote KeyID service, seen from the client: the requests the client can make
 * and the HTTP reply each one gets. The service is an oracle that answers each request
 * knowing every request made before it; how requests are encoded and sent is not part
 * of this model.
 */
module Service {
  import opened Wrappers
  import opened Json

  /** The enrollment code a profile save carries: none, or the text of the token the service issued. */
  datatype Code = NoCode | CodeOf(token: JValue)

  /** One request to the service. A token argument is sent as the `ToString()` text of the value held here. */
  datatype Call =
    | SaveProfile(entityID: string, sample: string, code: Code)
    | SaveToken(entityID: string, sample: string)
    | RemoveToken(entityID: string, sample: string)
    | RemoveProfile(entityID: string, token: JValue)
    | Nonce(time: int)
    | EvaluateSample(entityID: string, sample: string, nonce: string)
    | GetProfileInfo(entityID: string)

  /** An HTTP response: its status, its body, and what the JSON parser makes of the body (None: not JSON). */
  datatype HttpResponse = HttpResponse(status: int, body: string, json: Option<JValue>)

  /** The outcome of a request: the request failed, or a response arrived. */
  datatype Reply = Failed | Responded(response: HttpResponse)

  /** The service's behaviour: the reply to the last request of a history of requests. */
  type Responder = seq<Call> -> Reply

  class KeyIDService {
    const respond: Responder
    /** Every request sent so far, oldest first. */
    var history: seq<Call>

    constructor (respond: Responder)
      ensures this.respond == respond && history == []
    {
      this.respond := respond;
      history := [];
    }

    /** Sends one request and returns the reply the service gives to it. */
    method Send(call: Call) returns (reply: Reply)
      modifies this
      ensures history == old(history) + [call]
      ensures reply == respond(history)
    {
      history := history + [call];
      reply := respond(history);
    }
  }
}
