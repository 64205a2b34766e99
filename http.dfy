/** The transport client of internal/provider/client/client.go: a base endpoint, one
    request at a time, and the classification of every reply into body or error. The
    HTTP stack and the JSON library are collaborators whose code is not part of this
    model; they enter as the Transport object and the Codec value. */
module Http {
  import opened Wrappers
  import opened Text
  import opened Models

  /** Response and request bodies; Go's `[]byte`, printed with `%s` as the same characters. */
  type Bytes = string

  /** Go's HTTP client only accepts a three-digit status line, so a code is below 1000. */
  type StatusCode = s: int | 0 <= s <= 999

  datatype Method = Get | Post | Put | Delete

  const JsonContentType: string := "application/json"

  datatype HttpRequest = HttpRequest(verb: Method, url: string, body: Option<Bytes>, contentType: Option<string>)

  /** What the HTTP stack hands back: a status and the fully read body, or a failure
      (connection, timeout, or reading the body). */
  datatype HttpOutcome = Answered(status: StatusCode, body: Bytes) | TransportFailed(message: string)

  /** The errors a client call can return. */
  datatype Error =
    | StatusError(status: StatusCode, body: Bytes)   // built by doRequest for a non-2xx reply
    | TransportError(message: string)                 // returned by the HTTP stack, passed on unchanged
    | RequestError(message: string)                   // http.NewRequest rejected the URL
    | DecodeError(message: string)                    // json.Unmarshal rejected the body

  /** `err.Error()`: a status error is rendered by doRequest's format, every other error
      keeps the message it was created with. */
  function ErrorText(e: Error): (t: string)
    ensures e.StatusError? ==> StartsWith(t, "status: " + Decimal(e.status) + ", body: ")
    ensures !e.StatusError? ==> t == e.message
  {
    match e
    case StatusError(status, body) => StatusText(status, body)
    case TransportError(m) => m
    case RequestError(m) => m
    case DecodeError(m) => m
  }

  /** `fmt.Errorf("status: %d, body: %s", code, body).Error()`: the decimal code sits
      at a fixed place and the body ends the text verbatim, so (Text.DecimalInjective)
      both can be read back. */
  function StatusText(status: StatusCode, body: Bytes): (t: string)
    ensures |t| == 16 + |Decimal(status)| + |body|
    ensures t[8..8 + |Decimal(status)|] == Decimal(status)
    ensures t[|t| - |body|..] == body
  {
    var d := Decimal(status);
    var t := "status: " + d + ", body: " + body;
    assert t[8..8 + |d|] == d;
    assert t[|t| - |body|..] == body;
    t
  }

  const NotFoundMarker: string := "status: 404"

  /** The test every resource's Delete applies to an error: `strings.Contains(err.Error(), "status: 404")`. */
  predicate AlreadyGone(e: Error)
    ensures e.StatusError? ==> (AlreadyGone(e) <==> e.status == 404 || Contains(e.body, NotFoundMarker))
  {
    if e.StatusError? then
      StatusTextMentions404(e.status, e.body);
      Contains(ErrorText(e), NotFoundMarker)
    else
      Contains(ErrorText(e), NotFoundMarker)
  }

  /** `res.StatusCode/100 == 2`: exactly the codes 200 through 299. */
  predicate IsSuccess(status: StatusCode)
    ensures IsSuccess(status) <==> 200 <= status <= 299
  {
    status / 100 == 2
  }

  /** A 404 reply always reads as "already gone", and for any other code the text mentions
      "status: 404" exactly when the reply body does: the status part of the text contributes
      an occurrence only for code 404. */
  lemma StatusTextMentions404(status: StatusCode, body: Bytes)
    ensures Contains(StatusText(status, body), NotFoundMarker) <==> status == 404 || Contains(body, NotFoundMarker)
  {
    var s := StatusText(status, body);
    StatusTextHead(status, body);
    var rest := StatusTextRest(status);
    StatusTextRestSkips(status, body);
    ContainsSkip(rest, body, NotFoundMarker);
    assert s[1..] == rest + body;
  }

  /** The text after its first character, up to the body. */
  function StatusTextRest(status: StatusCode): string {
    "tatus: " + Decimal(status) + ", body: "
  }

  /** At the first position the text starts with the marker exactly when the code is 404. */
  lemma StatusTextHead(status: StatusCode, body: Bytes)
    ensures StartsWith(StatusText(status, body), NotFoundMarker) <==> status == 404
  {
    var d := Decimal(status);
    DecimalShort(status);
    var head, post := "status: " + d, ", body: ";
    var s := StatusText(status, body);
    assert s == head + (post + body);
    if StartsWith(s, NotFoundMarker) {
      if |d| < 3 {
        ShortCodeIsNotMarker(d, body);
      }
      assert s[..11] == head;
      assert d == head[8..] == NotFoundMarker[8..] == Decimal(404);
      DecimalInjective(status, 404);
    }
    if status == 404 {
      assert d == "404";
      assert s[..11] == head == NotFoundMarker;
    }
  }

  lemma ShortCodeIsNotMarker(d: string, body: Bytes)
    requires |d| < 3
    ensures !StartsWith("status: " + d + ", body: " + body, NotFoundMarker)
  {
    var s := "status: " + d + ", body: " + body;
    assert s[8 + |d|] == ',';
  }

  /** No later position of the fixed part can begin the marker: each holds a character other
      than 's', or the 's' of "status" followed by ':'. */
  lemma StatusTextRestSkips(status: StatusCode, body: Bytes)
    ensures StatusText(status, body) == "s" + StatusTextRest(status) + body
    ensures forall k :: 0 <= k < |StatusTextRest(status)| ==> !StartsWith(StatusTextRest(status)[k..] + body, NotFoundMarker)
  {
    FixedPartSkips(Decimal(status), body);
  }

  /** The per-position argument of StatusTextRestSkips, for any run of digits in place of the code. */
  lemma FixedPartSkips(d: string, body: Bytes)
    requires forall i :: 0 <= i < |d| ==> IsDigit(d[i])
    ensures forall k :: 0 <= k < |"tatus: " + d + ", body: "| ==> !StartsWith(("tatus: " + d + ", body: ")[k..] + body, NotFoundMarker)
  {
    var pre, post := "tatus: ", ", body: ";
    var rest := pre + d + post;
    forall k | 0 <= k < |rest| ensures !StartsWith(rest[k..] + body, NotFoundMarker) {
      var t := rest[k..] + body;
      assert t[0] == rest[k];
      if k == 4 {
        assert t[1] == rest[5] == ':';
      } else if k < 7 {
        assert rest[k] == pre[k];
      } else if k < 7 + |d| {
        assert rest[k] == d[k - 7];
        assert IsDigit(d[k - 7]);
      } else {
        assert rest[k] == post[k - 7 - |d|];
      }
    }
  }

  /** doRequest's decision: the body of a 2xx reply unmodified, a status error for any other
      code, and a transport failure passed on as it came. */
  function Classify(o: HttpOutcome): (r: Result<Bytes, Error>)
    ensures r.Success? <==> o.Answered? && 200 <= o.status <= 299
    ensures r.Success? ==> r.value == o.body
    ensures o.Answered? && r.Failure? ==> r.error == StatusError(o.status, o.body)
    ensures o.TransportFailed? ==> r == Failure(TransportError(o.message))
  {
    match o
    case TransportFailed(m) => Failure(TransportError(m))
    case Answered(status, body) =>
      if !IsSuccess(status) then Failure(StatusError(status, body)) else Success(body)
  }

  /** A 404 reply is classified so that Delete treats it as already gone. */
  lemma NotFoundReplyIsGone(body: Bytes)
    ensures Classify(Answered(404, body)).Failure?
    ensures AlreadyGone(Classify(Answered(404, body)).error)
  {
    StatusTextMentions404(404, body);
  }

  /** The last step of every call that reads an entity: a failed exchange is passed on as it
      is, a body the decoder rejects becomes a DecodeError, and a value is produced only by
      decoding a successful body. */
  function Receive<T>(reply: Result<Bytes, Error>, decode: Bytes -> Result<T, string>): (r: Result<T, Error>)
    ensures reply.Failure? ==> r == Failure(reply.error)
    ensures r.Success? ==> reply.Success? && decode(reply.value) == Success(r.value)
    ensures reply.Success? && decode(reply.value).Failure? ==> r == Failure(DecodeError(decode(reply.value).error))
  {
    match reply
    case Failure(e) => Failure(e)
    case Success(body) =>
      match decode(body)
      case Failure(m) => Failure(DecodeError(m))
      case Success(v) => Success(v)
  }

  /** The JSON library, seen through the entity types: decoding may fail with a message,
      encoding these plain records cannot fail. */
  datatype Codec = Codec(
    decodeEngineer: Bytes -> Result<Engineer, string>,
    decodeEngineers: Bytes -> Result<seq<Engineer>, string>,
    decodeDev: Bytes -> Result<Dev, string>,
    decodeDevs: Bytes -> Result<seq<Dev>, string>,
    decodeOps: Bytes -> Result<Ops, string>,
    decodeOpsList: Bytes -> Result<seq<Ops>, string>,
    decodeDevOps: Bytes -> Result<DevOps, string>,
    decodeDevOpsList: Bytes -> Result<seq<DevOps>, string>,
    encodeEngineer: Engineer -> Bytes,
    encodeDev: Dev -> Bytes,
    encodeOps: Ops -> Bytes,
    encodeDevOps: DevOps -> Bytes)

  /** The HTTP stack and, behind it, the backend. `urlError` is http.NewRequest's verdict on
      a URL; `respond` is the backend's reply to the last request of a history, so any
      backend whose replies depend on what it has been sent fits. `sent` records every
      request that reached the wire, in order. */
  class Transport {
    const urlError: string -> Option<string>
    const respond: seq<HttpRequest> -> HttpOutcome
    var sent: seq<HttpRequest>

    constructor (urlError: string -> Option<string>, respond: seq<HttpRequest> -> HttpOutcome)
      ensures this.urlError == urlError && this.respond == respond
      ensures sent == []
    {
      this.urlError := urlError;
      this.respond := respond;
      sent := [];
    }

    /** `HTTPClient.Do` followed by `io.ReadAll` of the body. */
    method Do(req: HttpRequest) returns (o: HttpOutcome)
      modifies this
      ensures sent == old(sent) + [req]
      ensures o == respond(sent)
    {
      sent := sent + [req];
      o := respond(sent);
    }
  }

  predicate Accepts(t: Transport, url: string) {
    t.urlError(url).None?
  }

  /** `http.NewRequest(method, url, body)`: no header set yet. */
  function NewRequest(t: Transport, verb: Method, url: string, body: Option<Bytes>): Result<HttpRequest, Error> {
    match t.urlError(url)
    case Some(m) => Failure(RequestError(m))
    case None => Success(HttpRequest(verb, url, body, None))
  }

  class Client {
    const endpoint: string
    const transport: Transport
    const codec: Codec

    /** The struct literal of NewClient: endpoint "" unless one is given. */
    constructor (endpoint: Option<string>, transport: Transport, codec: Codec)
      ensures this.endpoint == (if endpoint.Some? then endpoint.value else "")
      ensures this.transport == transport && this.codec == codec
    {
      this.endpoint := if endpoint.Some? then endpoint.value else "";
      this.transport := transport;
      this.codec := codec;
    }

    /** doRequest: one trip to the wire, then Classify. */
    method DoRequest(req: HttpRequest) returns (r: Result<Bytes, Error>)
      modifies transport
      ensures transport.sent == old(transport.sent) + [req]
      ensures r == Classify(transport.respond(transport.sent))
    {
      var o := transport.Do(req);
      if o.TransportFailed? {
        return Failure(TransportError(o.message));
      }
      if !IsSuccess(o.status) {
        return Failure(StatusError(o.status, o.body));
      }
      return Success(o.body);
    }
  }

  /** NewClient: an absent endpoint means the empty base, and no error is ever reported. */
  method NewClient(endpoint: Option<string>, transport: Transport, codec: Codec) returns (c: Client, err: Option<Error>)
    ensures fresh(c) && err == None
    ensures c.endpoint == (if endpoint.Some? then endpoint.value else "")
    ensures c.transport == transport && c.codec == codec
  {
    c := new Client(endpoint, transport, codec);
    err := None;
  }

  /** The effect of one client call on a request history: the history afterwards and the result. */
  datatype Call<T> = Call(sent: seq<HttpRequest>, result: Result<T, Error>)

  /** Build a request, set its content type, and send it through doRequest, starting from
      history `sent`. A rejected URL sends nothing; otherwise exactly one request is sent. */
  function Send(c: Client, sent: seq<HttpRequest>, verb: Method, url: string, body: Option<Bytes>, contentType: Option<string>): (k: Call<Bytes>)
    ensures Accepts(c.transport, url) ==> k.sent == sent + [HttpRequest(verb, url, body, contentType)]
    ensures !Accepts(c.transport, url) ==> k == Call(sent, Failure(RequestError(c.transport.urlError(url).value)))
    ensures k.sent != sent ==> k.result == Classify(c.transport.respond(k.sent))
  {
    match NewRequest(c.transport, verb, url, body)
    case Failure(e) => Call(sent, Failure(e))
    case Success(req) =>
      var issued := sent + [req.(contentType := contentType)];
      Call(issued, Classify(c.transport.respond(issued)))
  }

  /** Send, then decode the reply body. A call yields a value exactly when its URL is
      accepted, the backend answers 2xx and the decoder accepts that body; the value is
      then the decoder's, never a default. */
  function Fetch<T>(c: Client, sent: seq<HttpRequest>, verb: Method, url: string, body: Option<Bytes>,
                    contentType: Option<string>, decode: Bytes -> Result<T, string>): (k: Call<T>)
    ensures k.result.Success? <==>
              Accepts(c.transport, url) &&
              var o := c.transport.respond(k.sent);
              o.Answered? && 200 <= o.status <= 299 && decode(o.body).Success?
    ensures k.result.Success? ==> decode(c.transport.respond(k.sent).body) == Success(k.result.value)
    ensures k.sent == Send(c, sent, verb, url, body, contentType).sent
  {
    var k := Send(c, sent, verb, url, body, contentType);
    Call(k.sent, Receive(k.result, decode))
  }

  /** The common body of the client functions up to doRequest: build the request, stop on a
      construction error, set the content type when there is one, send. */
  method Exchange(c: Client, verb: Method, url: string, body: Option<Bytes>, contentType: Option<string>)
    returns (r: Result<Bytes, Error>)
    modifies c.transport
    ensures var k := Send(c, old(c.transport.sent), verb, url, body, contentType);
            c.transport.sent == k.sent && r == k.result
  {
    var req := NewRequest(c.transport, verb, url, body);
    if req.Failure? {
      return Failure(req.error);
    }
    var ready := req.value;
    if contentType.Some? {
      ready := ready.(contentType := contentType);
    }
    r := c.DoRequest(ready);
  }

  /** Exchange followed by `json.Unmarshal` into a fresh value; an unmarshal error is returned. */
  method Perform<T>(c: Client, verb: Method, url: string, body: Option<Bytes>, contentType: Option<string>,
                    decode: Bytes -> Result<T, string>) returns (r: Result<T, Error>)
    modifies c.transport
    ensures var k := Fetch(c, old(c.transport.sent), verb, url, body, contentType, decode);
            c.transport.sent == k.sent && r == k.result
  {
    var reply := Exchange(c, verb, url, body, contentType);
    if reply.Failure? {
      return Failure(reply.error);
    }
    var decoded := decode(reply.value);
    if decoded.Failure? {
      return Failure(DecodeError(decoded.error));
    }
    return Success(decoded.value);
  }
}
