/** The engineer functions of internal/provider/client/engineers.go. Each is one request
    and, except Delete, one decode. Note the asymmetry: GET and PUT address
    `/engineers/id/{id}`, DELETE addresses `/engineers/{id}`. */
module EngineerApi {
  import opened Wrappers
  import opened Models
  import opened Http

  function GetEngineersCall(c: Client, sent: seq<HttpRequest>): Call<seq<Engineer>> {
    Fetch(c, sent, Get, c.endpoint + "/engineers", None, None, c.codec.decodeEngineers)
  }

  function CreateEngineerCall(c: Client, sent: seq<HttpRequest>, engineer: Engineer): Call<Engineer> {
    Fetch(c, sent, Post, c.endpoint + "/engineers", Some(c.codec.encodeEngineer(engineer)), Some(JsonContentType), c.codec.decodeEngineer)
  }

  function GetEngineerCall(c: Client, sent: seq<HttpRequest>, engineerID: string): Call<Engineer> {
    Fetch(c, sent, Get, c.endpoint + "/engineers/id/" + engineerID, None, None, c.codec.decodeEngineer)
  }

  function UpdateEngineerCall(c: Client, sent: seq<HttpRequest>, engineerID: string, engineer: Engineer): Call<Engineer> {
    Fetch(c, sent, Put, c.endpoint + "/engineers/id/" + engineerID, Some(c.codec.encodeEngineer(engineer)), None, c.codec.decodeEngineer)
  }

  function DeleteEngineerCall(c: Client, sent: seq<HttpRequest>, engineerID: string): Call<Bytes> {
    Send(c, sent, Delete, c.endpoint + "/engineers/" + engineerID, None, None)
  }

  /** The one request each call puts on the wire when its URL is accepted: GET and PUT
      by ID use the `/id/` segment, DELETE does not, and only POST carries a content type. */
  lemma Routes(c: Client, sent: seq<HttpRequest>, engineerID: string, engineer: Engineer)
    ensures Accepts(c.transport, c.endpoint + "/engineers") ==>
              GetEngineersCall(c, sent).sent == sent + [HttpRequest(Get, c.endpoint + "/engineers", None, None)] &&
              CreateEngineerCall(c, sent, engineer).sent == sent + [HttpRequest(Post, c.endpoint + "/engineers", Some(c.codec.encodeEngineer(engineer)), Some(JsonContentType))]
    ensures Accepts(c.transport, c.endpoint + "/engineers/id/" + engineerID) ==>
              GetEngineerCall(c, sent, engineerID).sent == sent + [HttpRequest(Get, c.endpoint + "/engineers/id/" + engineerID, None, None)] &&
              UpdateEngineerCall(c, sent, engineerID, engineer).sent == sent + [HttpRequest(Put, c.endpoint + "/engineers/id/" + engineerID, Some(c.codec.encodeEngineer(engineer)), None)]
    ensures Accepts(c.transport, c.endpoint + "/engineers/" + engineerID) ==>
              DeleteEngineerCall(c, sent, engineerID).sent == sent + [HttpRequest(Delete, c.endpoint + "/engineers/" + engineerID, None, None)]
  {
  }

  /** GET {endpoint}/engineers, decoded as a list. */
  method GetEngineers(c: Client) returns (r: Result<seq<Engineer>, Error>)
    modifies c.transport
    ensures var k := GetEngineersCall(c, old(c.transport.sent)); c.transport.sent == k.sent && r == k.result
  {
    r := Perform(c, Get, c.endpoint + "/engineers", None, None, c.codec.decodeEngineers);
  }

  /** POST {endpoint}/engineers with a JSON body. */
  method CreateEngineer(c: Client, engineer: Engineer) returns (r: Result<Engineer, Error>)
    modifies c.transport
    ensures var k := CreateEngineerCall(c, old(c.transport.sent), engineer); c.transport.sent == k.sent && r == k.result
  {
    var rb := c.codec.encodeEngineer(engineer);
    r := Perform(c, Post, c.endpoint + "/engineers", Some(rb), Some(JsonContentType), c.codec.decodeEngineer);
  }

  /** GET {endpoint}/engineers/id/{id}. */
  method GetEngineer(c: Client, engineerID: string) returns (r: Result<Engineer, Error>)
    modifies c.transport
    ensures var k := GetEngineerCall(c, old(c.transport.sent), engineerID); c.transport.sent == k.sent && r == k.result
  {
    r := Perform(c, Get, c.endpoint + "/engineers/id/" + engineerID, None, None, c.codec.decodeEngineer);
  }

  /** PUT {endpoint}/engineers/id/{id}; no content type is set. */
  method UpdateEngineer(c: Client, engineerID: string, engineer: Engineer) returns (r: Result<Engineer, Error>)
    modifies c.transport
    ensures var k := UpdateEngineerCall(c, old(c.transport.sent), engineerID, engineer); c.transport.sent == k.sent && r == k.result
  {
    var rb := c.codec.encodeEngineer(engineer);
    r := Perform(c, Put, c.endpoint + "/engineers/id/" + engineerID, Some(rb), None, c.codec.decodeEngineer);
  }

  /** DELETE {endpoint}/engineers/{id}: the reply body is dropped, doRequest's error returned. */
  method DeleteEngineer(c: Client, engineerID: string) returns (err: Option<Error>)
    modifies c.transport
    ensures var k := DeleteEngineerCall(c, old(c.transport.sent), engineerID); c.transport.sent == k.sent && err == ErrorOf(k.result)
  {
    var reply := Exchange(c, Delete, c.endpoint + "/engineers/" + engineerID, None, None);
    err := ErrorOf(reply);
  }
}
