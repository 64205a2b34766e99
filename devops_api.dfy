/** The DevOps pairing functions. internal/provider/client/devops.go defines only the list
    and the create call; the DevOps resource also relies on a get-by-ID, an update and a
    delete call that the client does not define, so those three are abstract here: their
    answers come from an oracle over the calls made so far. */
module DevOpsApi {
  import opened Wrappers
  import opened Models
  import opened Http

  const CollectionPath: string := "/devops"

  function GetDevOpsCall(c: Client, sent: seq<HttpRequest>): Call<seq<DevOps>> {
    Fetch(c, sent, Get, c.endpoint + CollectionPath, None, None, c.codec.decodeDevOpsList)
  }

  function CreateDevopsCall(c: Client, sent: seq<HttpRequest>, devops: DevOps): Call<DevOps> {
    Fetch(c, sent, Post, c.endpoint + CollectionPath, Some(c.codec.encodeDevOps(devops)), Some(JsonContentType), c.codec.decodeDevOps)
  }

  /** The one request each call puts on the wire when its URL is accepted: both address the
      collection, and only POST carries a content type. */
  lemma Routes(c: Client, sent: seq<HttpRequest>, devops: DevOps)
    ensures Accepts(c.transport, c.endpoint + CollectionPath) ==>
              GetDevOpsCall(c, sent).sent == sent + [HttpRequest(Get, c.endpoint + "/devops", None, None)] &&
              CreateDevopsCall(c, sent, devops).sent == sent + [HttpRequest(Post, c.endpoint + "/devops", Some(c.codec.encodeDevOps(devops)), Some(JsonContentType))]
  {
  }

  /** GET {endpoint}/devops, decoded as a list. */
  method GetDevOps(c: Client) returns (r: Result<seq<DevOps>, Error>)
    modifies c.transport
    ensures var k := GetDevOpsCall(c, old(c.transport.sent)); c.transport.sent == k.sent && r == k.result
  {
    r := Perform(c, Get, c.endpoint + CollectionPath, None, None, c.codec.decodeDevOpsList);
  }

  /** POST {endpoint}/devops with a JSON body. The content type is set on the request before
      the construction error is looked at, so a URL that http.NewRequest rejects makes the Go
      code dereference a nil request: a fault, which the precondition excludes. */
  method CreateDevops(c: Client, devops: DevOps) returns (r: Result<DevOps, Error>)
    requires Accepts(c.transport, c.endpoint + CollectionPath)
    modifies c.transport
    ensures var k := CreateDevopsCall(c, old(c.transport.sent), devops); c.transport.sent == k.sent && r == k.result
  {
    var b := c.codec.encodeDevOps(devops);
    var req := NewRequest(c.transport, Post, c.endpoint + CollectionPath, Some(b));
    var ready := req.value.(contentType := Some(JsonContentType));
    // The error check that follows in the Go code can no longer fire here.
    var body := c.DoRequest(ready);
    if body.Failure? {
      return Failure(body.error);
    }
    var created := c.codec.decodeDevOps(body.value);
    if created.Failure? {
      return Failure(DecodeError(created.error));
    }
    return Success(created.value);
  }

  /** A call to one of the three client functions the code base does not define. */
  datatype DevOpsCall =
    | GetDevOpsByIDCall(id: string)
    | UpdateDevOpsCall(id: string, devops: DevOps)
    | DeleteDevOpsCall(id: string)

  /** GetDevOpsByID, UpdateDevOps and DeleteDevOps, known only by their Go signatures. A get
      may answer `Success(None)`, Go's `(nil, nil)`. */
  class AbstractCalls {
    const getAnswer: seq<DevOpsCall> -> Result<Option<DevOps>, Error>
    const updateAnswer: seq<DevOpsCall> -> Result<Option<DevOps>, Error>
    const deleteAnswer: seq<DevOpsCall> -> Option<Error>
    var calls: seq<DevOpsCall>

    constructor (getAnswer: seq<DevOpsCall> -> Result<Option<DevOps>, Error>,
                 updateAnswer: seq<DevOpsCall> -> Result<Option<DevOps>, Error>,
                 deleteAnswer: seq<DevOpsCall> -> Option<Error>)
      ensures this.getAnswer == getAnswer && this.updateAnswer == updateAnswer && this.deleteAnswer == deleteAnswer
      ensures calls == []
    {
      this.getAnswer := getAnswer;
      this.updateAnswer := updateAnswer;
      this.deleteAnswer := deleteAnswer;
      calls := [];
    }

    method GetDevOpsByID(id: string) returns (r: Result<Option<DevOps>, Error>)
      modifies this
      ensures calls == old(calls) + [GetDevOpsByIDCall(id)]
      ensures r == getAnswer(calls)
    {
      calls := calls + [GetDevOpsByIDCall(id)];
      r := getAnswer(calls);
    }

    method UpdateDevOps(id: string, devops: DevOps) returns (r: Result<Option<DevOps>, Error>)
      modifies this
      ensures calls == old(calls) + [UpdateDevOpsCall(id, devops)]
      ensures r == updateAnswer(calls)
    {
      calls := calls + [UpdateDevOpsCall(id, devops)];
      r := updateAnswer(calls);
    }

    method DeleteDevOps(id: string) returns (err: Option<Error>)
      modifies this
      ensures calls == old(calls) + [DeleteDevOpsCall(id)]
      ensures err == deleteAnswer(calls)
    {
      calls := calls + [DeleteDevOpsCall(id)];
      err := deleteAnswer(calls);
    }
  }
}
