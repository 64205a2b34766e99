/** The Ops group functions of internal/provider/client/ops.go. The collection is `/op`;
    POST goes to `/op/` with a trailing slash; GET by ID addresses `/op/id/{id}`, PUT and
    DELETE address `/op/{id}`. */
module OpsApi {
  import opened Wrappers
  import opened Models
  import opened Http

  function GetOpsCall(c: Client, sent: seq<HttpRequest>): Call<seq<Ops>> {
    Fetch(c, sent, Get, c.endpoint + "/op", None, None, c.codec.decodeOpsList)
  }

  function GetOpsByIDCall(c: Client, sent: seq<HttpRequest>, opsID: string): Call<Ops> {
    Fetch(c, sent, Get, c.endpoint + "/op/id/" + opsID, None, None, c.codec.decodeOps)
  }

  function CreateOpsCall(c: Client, sent: seq<HttpRequest>, ops: Ops): Call<Ops> {
    Fetch(c, sent, Post, c.endpoint + "/op/", Some(c.codec.encodeOps(ops)), Some(JsonContentType), c.codec.decodeOps)
  }

  function UpdateOpsCall(c: Client, sent: seq<HttpRequest>, opsID: string, ops: Ops): Call<Ops> {
    Fetch(c, sent, Put, c.endpoint + "/op/" + opsID, Some(c.codec.encodeOps(ops)), None, c.codec.decodeOps)
  }

  function DeleteOpsCall(c: Client, sent: seq<HttpRequest>, opsID: string): Call<Bytes> {
    Send(c, sent, Delete, c.endpoint + "/op/" + opsID, None, None)
  }

  /** The one request each call puts on the wire when its URL is accepted: POST addresses
      `/op/` with a trailing slash, GET by ID uses the `/id/` segment, PUT and DELETE do
      not, and only POST carries a content type. */
  lemma Routes(c: Client, sent: seq<HttpRequest>, opsID: string, ops: Ops)
    ensures Accepts(c.transport, c.endpoint + "/op") ==>
              GetOpsCall(c, sent).sent == sent + [HttpRequest(Get, c.endpoint + "/op", None, None)]
    ensures Accepts(c.transport, c.endpoint + "/op/") ==>
              CreateOpsCall(c, sent, ops).sent == sent + [HttpRequest(Post, c.endpoint + "/op/", Some(c.codec.encodeOps(ops)), Some(JsonContentType))]
    ensures Accepts(c.transport, c.endpoint + "/op/id/" + opsID) ==>
              GetOpsByIDCall(c, sent, opsID).sent == sent + [HttpRequest(Get, c.endpoint + "/op/id/" + opsID, None, None)]
    ensures Accepts(c.transport, c.endpoint + "/op/" + opsID) ==>
              UpdateOpsCall(c, sent, opsID, ops).sent == sent + [HttpRequest(Put, c.endpoint + "/op/" + opsID, Some(c.codec.encodeOps(ops)), None)] &&
              DeleteOpsCall(c, sent, opsID).sent == sent + [HttpRequest(Delete, c.endpoint + "/op/" + opsID, None, None)]
  {
  }

  /** GET {endpoint}/op, decoded as a list. */
  method GetOps(c: Client) returns (r: Result<seq<Ops>, Error>)
    modifies c.transport
    ensures var k := GetOpsCall(c, old(c.transport.sent)); c.transport.sent == k.sent && r == k.result
  {
    r := Perform(c, Get, c.endpoint + "/op", None, None, c.codec.decodeOpsList);
  }

  /** GET {endpoint}/op/id/{id}; never answers "no group and no error". */
  method GetOpsByID(c: Client, opsID: string) returns (r: Result<Ops, Error>)
    modifies c.transport
    ensures var k := GetOpsByIDCall(c, old(c.transport.sent), opsID); c.transport.sent == k.sent && r == k.result
  {
    r := Perform(c, Get, c.endpoint + "/op/id/" + opsID, None, None, c.codec.decodeOps);
  }

  /** POST {endpoint}/op/ with a JSON body. */
  method CreateOps(c: Client, ops: Ops) returns (r: Result<Ops, Error>)
    modifies c.transport
    ensures var k := CreateOpsCall(c, old(c.transport.sent), ops); c.transport.sent == k.sent && r == k.result
  {
    var b := c.codec.encodeOps(ops);
    r := Perform(c, Post, c.endpoint + "/op/", Some(b), Some(JsonContentType), c.codec.decodeOps);
  }

  /** PUT {endpoint}/op/{id}, without a content type. */
  method UpdateOps(c: Client, opsID: string, ops: Ops) returns (r: Result<Ops, Error>)
    modifies c.transport
    ensures var k := UpdateOpsCall(c, old(c.transport.sent), opsID, ops); c.transport.sent == k.sent && r == k.result
  {
    var rb := c.codec.encodeOps(ops);
    r := Perform(c, Put, c.endpoint + "/op/" + opsID, Some(rb), None, c.codec.decodeOps);
  }

  /** DELETE {endpoint}/op/{id}: exactly doRequest's error. */
  method DeleteOps(c: Client, opsID: string) returns (err: Option<Error>)
    modifies c.transport
    ensures var k := DeleteOpsCall(c, old(c.transport.sent), opsID); c.transport.sent == k.sent && err == ErrorOf(k.result)
  {
    var reply := Exchange(c, Delete, c.endpoint + "/op/" + opsID, None, None);
    err := ErrorOf(reply);
  }
}
