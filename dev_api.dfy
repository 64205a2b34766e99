/** The Dev group functions of internal/provider/client/dev.go. GET by ID addresses
    `/dev/id/{id}`, PUT and DELETE address `/dev/{id}`; only POST sets a content type. */
module DevApi {
  import opened Wrappers
  import opened Models
  import opened Http

  function GetDevCall(c: Client, sent: seq<HttpRequest>): Call<seq<Dev>> {
    Fetch(c, sent, Get, c.endpoint + "/dev", None, None, c.codec.decodeDevs)
  }

  function GetDevByIDCall(c: Client, sent: seq<HttpRequest>, devID: string): Call<Dev> {
    Fetch(c, sent, Get, c.endpoint + "/dev/id/" + devID, None, None, c.codec.decodeDev)
  }

  function CreateDevCall(c: Client, sent: seq<HttpRequest>, dev: Dev): Call<Dev> {
    Fetch(c, sent, Post, c.endpoint + "/dev", Some(c.codec.encodeDev(dev)), Some(JsonContentType), c.codec.decodeDev)
  }

  function UpdateDevCall(c: Client, sent: seq<HttpRequest>, devID: string, dev: Dev): Call<Dev> {
    Fetch(c, sent, Put, c.endpoint + "/dev/" + devID, Some(c.codec.encodeDev(dev)), None, c.codec.decodeDev)
  }

  function DeleteDevCall(c: Client, sent: seq<HttpRequest>, devID: string): Call<Bytes> {
    Send(c, sent, Delete, c.endpoint + "/dev/" + devID, None, None)
  }

  /** The one request each call puts on the wire when its URL is accepted: GET by ID uses
      the `/id/` segment, PUT and DELETE do not, and only POST carries a content type. */
  lemma Routes(c: Client, sent: seq<HttpRequest>, devID: string, dev: Dev)
    ensures Accepts(c.transport, c.endpoint + "/dev") ==>
              GetDevCall(c, sent).sent == sent + [HttpRequest(Get, c.endpoint + "/dev", None, None)] &&
              CreateDevCall(c, sent, dev).sent == sent + [HttpRequest(Post, c.endpoint + "/dev", Some(c.codec.encodeDev(dev)), Some(JsonContentType))]
    ensures Accepts(c.transport, c.endpoint + "/dev/id/" + devID) ==>
              GetDevByIDCall(c, sent, devID).sent == sent + [HttpRequest(Get, c.endpoint + "/dev/id/" + devID, None, None)]
    ensures Accepts(c.transport, c.endpoint + "/dev/" + devID) ==>
              UpdateDevCall(c, sent, devID, dev).sent == sent + [HttpRequest(Put, c.endpoint + "/dev/" + devID, Some(c.codec.encodeDev(dev)), None)] &&
              DeleteDevCall(c, sent, devID).sent == sent + [HttpRequest(Delete, c.endpoint + "/dev/" + devID, None, None)]
  {
  }

  /** GET {endpoint}/dev, decoded as a list. */
  method GetDev(c: Client) returns (r: Result<seq<Dev>, Error>)
    modifies c.transport
    ensures var k := GetDevCall(c, old(c.transport.sent)); c.transport.sent == k.sent && r == k.result
  {
    r := Perform(c, Get, c.endpoint + "/dev", None, None, c.codec.decodeDevs);
  }

  /** GET {endpoint}/dev/id/{id}. A success always carries a group: the Go function
      returns either a non-nil pointer or a non-nil error, never both nil. */
  method GetDevByID(c: Client, devID: string) returns (r: Result<Dev, Error>)
    modifies c.transport
    ensures var k := GetDevByIDCall(c, old(c.transport.sent), devID); c.transport.sent == k.sent && r == k.result
  {
    r := Perform(c, Get, c.endpoint + "/dev/id/" + devID, None, None, c.codec.decodeDev);
  }

  /** POST {endpoint}/dev with a JSON body. */
  method CreateDev(c: Client, dev: Dev) returns (r: Result<Dev, Error>)
    modifies c.transport
    ensures var k := CreateDevCall(c, old(c.transport.sent), dev); c.transport.sent == k.sent && r == k.result
  {
    var b := c.codec.encodeDev(dev);
    r := Perform(c, Post, c.endpoint + "/dev", Some(b), Some(JsonContentType), c.codec.decodeDev);
  }

  /** PUT {endpoint}/dev/{id}, without the `/id/` segment and without a content type. */
  method UpdateDev(c: Client, devID: string, dev: Dev) returns (r: Result<Dev, Error>)
    modifies c.transport
    ensures var k := UpdateDevCall(c, old(c.transport.sent), devID, dev); c.transport.sent == k.sent && r == k.result
  {
    var rb := c.codec.encodeDev(dev);
    r := Perform(c, Put, c.endpoint + "/dev/" + devID, Some(rb), None, c.codec.decodeDev);
  }

  /** DELETE {endpoint}/dev/{id}: exactly doRequest's error. */
  method DeleteDev(c: Client, devID: string) returns (err: Option<Error>)
    modifies c.transport
    ensures var k := DeleteDevCall(c, old(c.transport.sent), devID); c.transport.sent == k.sent && err == ErrorOf(k.result)
  {
    var reply := Exchange(c, Delete, c.endpoint + "/dev/" + devID, None, None);
    err := ErrorOf(reply);
  }
}
