/** e7/e7api.go: the API client. NewRequest builds a request against the base
    URL; Do sends it, turns a non-2xx answer into an ErrorResponse
    (CheckResponse) and decodes a successful answer into the caller's
    destination; on the way out the response body is drained and closed,
    which after a failed status reaches only CheckResponse's NopCloser.
    The network, and encoding/json's reading of bytes, come from outside:
    the transport's answer is a parameter of the client, and each body
    carries what encoding/json reads from a sequence of bytes. */
module Api {
  import opened Wrappers
  import opened Json
  import opened Urls

  newtype byte = x: int | 0 <= x < 256

  // ----- Base URL, requests and contexts -------------------------------------

  /** defaultBaseURL, "https://api.epicsevendb.com/", as url.Parse reads it. */
  const DefaultBaseURL: Url := Url("https", "api.epicsevendb.com", "/", None, "")

  /** defaultBaseURL as written. */
  const DefaultBaseURLText: string := "https://api.epicsevendb.com/"

  /** Why a context is done: ctx.Err(). */
  datatype ContextCause = Canceled | DeadlineExceeded

  /** A (non-nil) context: still live, or done for a reason. */
  datatype Context = Live | Done(cause: ContextCause)

  /** An http.Request: method, URL, header and the context it carries. */
  datatype Request = Request(Method: string, URL: Url, Header: map<string, seq<string>>, ctx: Context)

  /** The header NewRequest sets: Content-Type: application/json. */
  const JsonContentType: map<string, seq<string>> := map["Content-Type" := ["application/json"]]

  /** http.NewRequest's default for the empty method. */
  function DefaultMethod(verb: string): (r: string)
  {
    if verb == "" then "GET" else verb
  }

  /** A character of an RFC 7230 token (tchar, section 3.2.6). */
  predicate IsTokenChar(c: char)
  {
    || c == '!' || c == '#' || c == '$' || c == '%' || c == '&' || c == '\'' || c == '*'
    || c == '+' || c == '-' || c == '.' || c == '^' || c == '_' || c == '`' || c == '|' || c == '~'
    || '0' <= c <= '9' || 'a' <= c <= 'z' || 'A' <= c <= 'Z'
  }

  /** http.NewRequest's validMethod: a non-empty token. */
  predicate ValidMethod(verb: string)
  {
    |verb| > 0 && forall i | 0 <= i < |verb| :: IsTokenChar(verb[i])
  }

  /** strings.HasSuffix(path, "/"). */
  predicate HasTrailingSlash(path: string)
  {
    |path| > 0 && path[|path| - 1] == '/'
  }

  // ----- Response bodies -----------------------------------------------------

  /** A reading of byte sequences that finds no value exactly in the
      sequences that hold only JSON whitespace. */
  ghost predicate JsonReader(json: seq<byte> -> JsonReading)
  {
    forall d: seq<byte> :: json(d).NoValue? <==> (forall i | 0 <= i < |d| :: IsWhitespace(d[i] as char))
  }

  /** A response body: its bytes, how far it has been read and whether it has
      been closed. `json` is what encoding/json reads from a sequence of bytes;
      `nopCloser` marks a body whose Close does nothing (ioutil.NopCloser). */
  class Body {
    const data: seq<byte>
    const json: seq<byte> -> JsonReading
    const nopCloser: bool
    var offset: nat
    var closed: bool

    ghost predicate Valid()
      reads this
    {
      offset <= |data| && JsonReader(json)
    }

    constructor (data: seq<byte>, json: seq<byte> -> JsonReading, nopCloser: bool)
      requires JsonReader(json)
      ensures this.data == data && this.json == json && this.nopCloser == nopCloser
      ensures offset == 0 && !closed && Valid()
    {
      this.data := data;
      this.json := json;
      this.nopCloser := nopCloser;
      offset := 0;
      closed := false;
    }

    /** ioutil.ReadAll: the rest of the body. */
    method ReadAll() returns (d: seq<byte>)
      requires Valid()
      modifies this
      ensures Valid()
      ensures d == data[old(offset)..] && offset == |data| && closed == old(closed)
    {
      d := data[offset..];
      offset := |data|;
    }

    /** io.CopyN(ioutil.Discard, body, n): skips up to n bytes. */
    method CopyN(n: nat)
      requires Valid()
      modifies this
      ensures Valid()
      ensures offset == Min(old(offset) + n, |data|) && closed == old(closed)
    {
      offset := Min(offset + n, |data|);
    }

    method Close()
      modifies this
      ensures offset == old(offset)
      ensures closed == (old(closed) || !nopCloser)
    {
      if !nopCloser {
        closed := true;
      }
    }
  }

  function Min(a: int, b: int): (r: int)
  {
    if a <= b then a else b
  }

  /** An http.Response: status, declared length (-1 when unknown) and body. */
  class Response {
    const StatusCode: int
    const ContentLength: int
    var Body: Body

    constructor (statusCode: int, contentLength: int, body: Body)
      ensures StatusCode == statusCode && ContentLength == contentLength && Body == body
    {
      StatusCode := statusCode;
      ContentLength := contentLength;
      Body := body;
    }
  }

  // ----- The transport -------------------------------------------------------

  /** The *url.Error http.Client.Do returns when no response arrives. */
  datatype TransportFault = TransportFault(reason: string)

  /** What the transport does with a request. */
  datatype RoundTrip = Failed(fault: TransportFault) | Received(response: Response)

  /** The http.Client: `answer` is what the network gives back (not modelled),
      `sent` the requests handed to it so far. */
  class HttpClient {
    const answer: RoundTrip
    var sent: seq<Request>

    constructor (answer: RoundTrip)
      ensures this.answer == answer && sent == []
    {
      this.answer := answer;
      sent := [];
    }

    /** The objects a response from the transport consists of. */
    function Answered(): set<object>
      reads if answer.Received? then {answer.response} else {}
    {
      if answer.Received? then {answer.response, answer.response.Body} else {}
    }

    /** What encoding/json reads from the whole body of the response, if any. */
    ghost function Delivered(): JsonReading
      reads Answered()
    {
      if answer.Received? then answer.response.Body.json(answer.response.Body.data) else NoValue
    }

    /** A response comes with an unread, open body that Close really closes.
        This is a modelling choice: for a response without content net/http
        hands back http.NoBody, whose Close does nothing. */
    ghost predicate Ready()
      reads this, Answered()
    {
      answer.Received? ==>
        var b := answer.response.Body;
        b.Valid() && b.offset == 0 && !b.closed && !b.nopCloser
    }

    method Do(req: Request) returns (rt: RoundTrip)
      modifies this
      ensures sent == old(sent) + [req] && rt == answer
    {
      sent := sent + [req];
      rt := answer;
    }
  }

  // ----- Metadata, error responses and decode targets ------------------------

  /** Metadata: the envelope every API response carries. */
  datatype Metadata = Metadata(RequestDate: string, APIVersion: string)

  const NoMetadata: Metadata := Metadata("", "")

  /** A Go string field decoded from member `key` of an object: the member's
      string, or the field's prior value when the member is missing or null;
      the flag reports a member of another type (an UnmarshalTypeError, which
      leaves the field as it was). */
  function StringMember(m: map<string, JsonValue>, key: string, prior: string): (string, bool)
  {
    if key !in m then (prior, false)
    else match m[key]
      case JString(s) => (s, false)
      case JNull => (prior, false)
      case _ => (prior, true)
  }

  /** Member `key` decoded into a Metadata field. */
  function MetadataMember(m: map<string, JsonValue>, key: string, prior: Metadata): (Metadata, bool)
  {
    if key !in m then (prior, false)
    else match m[key]
      case JObject(f) =>
        var (date, e1) := StringMember(f, "requestDate", prior.RequestDate);
        var (version, e2) := StringMember(f, "apiVersion", prior.APIVersion);
        (Metadata(date, version), e1 || e2)
      case JNull => (prior, false)
      case _ => (prior, true)
  }

  /** A string field as encoding/json.Marshal writes it under `omitempty`. */
  function StringMembers(key: string, s: string): (r: map<string, JsonValue>)
  {
    if s == "" then map[] else map[key := JString(s)]
  }

  /** json.Marshal of a Metadata value. */
  function EncodeMetadata(md: Metadata): (r: JsonValue)
  {
    JObject(StringMembers("requestDate", md.RequestDate) + StringMembers("apiVersion", md.APIVersion))
  }

  /** ErrorResponse: the response that failed and what its body says. */
  datatype ErrorResponse = ErrorResponse(Response: Response, Message: string, Stack: string, Metadata: Metadata)

  /** The fields json.Unmarshal fills in an empty ErrorResponse (tags "error",
      "stack", "meta"). Unmarshal decodes only a body that is exactly one JSON
      value: anything else, the empty body included, leaves every field empty.
      Type errors inside the value are ignored, as CheckResponse ignores
      Unmarshal's error. */
  function ErrorDetails(reading: JsonReading): (r: (string, string, Metadata))
    ensures !(reading.Value? && reading.value.JObject?) ==> r == ("", "", NoMetadata)
    ensures reading.Value? && reading.value.JObject? ==>
      var m := reading.value.members;
      && ("error" in m && m["error"].JString? ==> r.0 == m["error"].s)
      && ("stack" in m && m["stack"].JString? ==> r.1 == m["stack"].s)
      && (("error" !in m || !m["error"].JString?) ==> r.0 == "")
      && (("stack" !in m || !m["stack"].JString?) ==> r.1 == "")
      && ("meta" !in m ==> r.2 == NoMetadata)
  {
    if reading.Value? && reading.value.JObject? then
      var m := reading.value.members;
      (StringMember(m, "error", "").0, StringMember(m, "stack", "").0, MetadataMember(m, "meta", NoMetadata).0)
    else ("", "", NoMetadata)
  }

  function ErrorResponseOf(r: Response, reading: JsonReading): (e: ErrorResponse)
  {
    var (msg, stack, md) := ErrorDetails(reading);
    ErrorResponse(r, msg, stack, md)
  }

  /** What the API writes for an error, as json.Marshal writes an
      ErrorResponse's tagged fields. */
  function EncodeErrorBody(message: string, stack: string, md: Metadata): (r: JsonValue)
  {
    JObject(StringMembers("error", message) + StringMembers("stack", stack) + map["meta" := EncodeMetadata(md)])
  }

  /** The hero schema is not modelled: a hero is the object it was read from. */
  datatype Hero = Hero(members: map<string, JsonValue>)

  /** The tag of HeroesResponse.Metadata as e7/heroes.go writes it. */
  const HeroesMetadataTagAsWritten: string := "metadata"

  /** The member the API puts its metadata in: the tag Metadata evidently
      needs, which the corrected decoding (HeroesRoundTrip) uses. */
  const HeroesMetadataTag: string := "meta"

  /** One element of "results": null is a nil *Hero and an object is a hero.
      For an element of another type encoding/json first allocates a new Hero
      and then records the type error, so the element is a zero Hero. */
  function HeroElement(v: JsonValue): (r: Option<Hero>)
  {
    if v.JNull? then None else Some(Hero(if v.JObject? then v.members else map[]))
  }

  predicate IsHeroOrNull(v: JsonValue)
  {
    v.JObject? || v.JNull?
  }

  /** The "results" member decoded into a []*Hero starting out as `prior`. */
  function ResultsMember(m: map<string, JsonValue>, prior: seq<Option<Hero>>): (seq<Option<Hero>>, bool)
  {
    if "results" !in m then (prior, false)
    else match m["results"]
      case JNull => ([], false)
      case JArray(items) =>
        (seq(|items|, i requires 0 <= i < |items| => HeroElement(items[i])),
         exists i | 0 <= i < |items| :: !IsHeroOrNull(items[i]))
      case _ => (prior, true)
  }

  /** A JSON value decoded into a HeroesResponse whose metadata is tagged
      `tag`: the new Results and Metadata, and whether a type error occurred.
      Null changes nothing; a value other than an object is a type error. */
  function DecodeHeroes(tag: string, results: seq<Option<Hero>>, md: Metadata, v: JsonValue)
    : (seq<Option<Hero>>, Metadata, bool)
  {
    match v
    case JNull => (results, md, false)
    case JObject(m) =>
      var (rs, e1) := ResultsMember(m, results);
      var (md', e2) := MetadataMember(m, tag, md);
      (rs, md', e1 || e2)
    case _ => (results, md, true)
  }

  /** json.Marshal of a HeroesResponse whose metadata is tagged `tag`. */
  function EncodeHeroes(tag: string, results: seq<Option<Hero>>, md: Metadata): (r: JsonValue)
  {
    var items := seq(|results|, i requires 0 <= i < |results| =>
                   if results[i].Some? then JObject(results[i].value.members) else JNull);
    JObject((if results == [] then map[] else map["results" := JArray(items)])
            + map[tag := EncodeMetadata(md)])
  }

  /** Why json.Decoder.Decode failed: io.EOF (nothing but whitespace), a
      syntax error, or an UnmarshalTypeError. */
  datatype DecodeError = EndOfInput | SyntaxError | TypeError

  /** json.NewDecoder(body).Decode(&HeroesResponse) given what the decoder
      reads: the first value is decoded, whatever follows it, with Metadata
      under its tag as e7/heroes.go writes it. */
  function DecodeHeroesStream(results: seq<Option<Hero>>, md: Metadata, reading: JsonReading)
    : (r: (seq<Option<Hero>>, Metadata, Option<DecodeError>))
    ensures reading.NoValue? ==> r == (results, md, Some(EndOfInput))
    ensures reading.Malformed? ==> r == (results, md, Some(SyntaxError))
    ensures (reading.Value? || reading.ValueThenMore?) ==>
      && r.2 != Some(EndOfInput) && r.2 != Some(SyntaxError)
      && (reading.value.JNull? ==> r == (results, md, None))
      && (reading.value.JObject? && "results" in reading.value.members && reading.value.members["results"].JArray? ==>
            |r.0| == |reading.value.members["results"].items|)
      && (reading.value.JObject? && "results" !in reading.value.members ==> r.0 == results)
      && (reading.value.JObject? && HeroesMetadataTagAsWritten !in reading.value.members ==> r.1 == md)
  {
    match reading
    case NoValue => (results, md, Some(EndOfInput))
    case Malformed => (results, md, Some(SyntaxError))
    case _ =>
      var (rs, md', typeError) := DecodeHeroes(HeroesMetadataTagAsWritten, results, md, reading.value);
      (rs, md', if typeError then Some(TypeError) else None)
  }

  /** HeroesResponse: the envelope of a list of heroes. */
  class HeroesResponse {
    var Results: seq<Option<Hero>>
    var Metadata: Metadata

    /** new(HeroesResponse). */
    constructor ()
      ensures Results == [] && Metadata == NoMetadata
    {
      Results := [];
      Metadata := NoMetadata;
    }

    method Decode(reading: JsonReading) returns (err: Option<DecodeError>)
      modifies this
      ensures (Results, Metadata, err) == DecodeHeroesStream(old(Results), old(Metadata), reading)
    {
      var (rs, md, e) := DecodeHeroesStream(Results, Metadata, reading);
      Results, Metadata, err := rs, md, e;
    }
  }

  /** A destination of type *interface{}: it holds any JSON value (None is nil). */
  class Document {
    var value: Option<JsonValue>

    constructor ()
      ensures value == None
    {
      value := None;
    }

    method Decode(reading: JsonReading) returns (err: Option<DecodeError>)
      modifies this
      ensures reading.NoValue? ==> err == Some(EndOfInput) && value == old(value)
      ensures reading.Malformed? ==> err == Some(SyntaxError) && value == old(value)
      ensures (reading.Value? || reading.ValueThenMore?) ==>
        err == None && value == (if reading.value.JNull? then None else Some(reading.value))
    {
      match reading
      case NoValue => err := Some(EndOfInput);
      case Malformed => err := Some(SyntaxError);
      case _ =>
        err := None;
        value := if reading.value.JNull? then None else Some(reading.value);
    }
  }

  /** An io.Writer collecting what is written to it. */
  class ByteSink {
    var contents: seq<byte>

    constructor ()
      ensures contents == []
    {
      contents := [];
    }

    method Write(d: seq<byte>)
      modifies this
      ensures contents == old(contents) + d
    {
      contents := contents + d;
    }
  }

  /** The `v` argument of Do: nil, an io.Writer, or a value to decode into. */
  datatype Destination =
    | NoDestination
    | WriterTo(sink: ByteSink)
    | HeroesTarget(heroes: HeroesResponse)
    | DocumentTarget(doc: Document)
  {
    function Objects(): set<object>
    {
      match this
      case NoDestination => {}
      case WriterTo(w) => {w}
      case HeroesTarget(h) => {h}
      case DocumentTarget(d) => {d}
    }
  }

  // ----- Errors --------------------------------------------------------------

  /** The errors NewRequest and Do return. */
  datatype ClientError =
    | MissingTrailingSlash(base: Url)         // "BaseURL must have a trailing slash"
    | UrlParse(ref: string, parseError: UrlError)  // *url.Error from url.Parse
    | InvalidMethod(verb: string)           // "net/http: invalid method"
    | NilContext                              // ErrNilContext
    | ContextError(reason: ContextCause)       // ctx.Err()
    | Transport(fault: TransportFault)        // the error of http.Client.Do
    | Status(response: ErrorResponse)         // *ErrorResponse from CheckResponse
    | Decode(decodeError: DecodeError)           // json.Decoder.Decode's error
    | EmptyResult                             // no hero in a successful answer

  // ----- CheckResponse -------------------------------------------------------

  /** The statuses CheckResponse lets through: 200 to 299. */
  predicate IsSuccess(code: int)
  {
    200 <= code && code <= 299
  }

  /** CheckResponse: a status outside 200..299 is an ErrorResponse built from
      the rest of the body, and the body is replaced by a NopCloser over the
      same bytes so that it can be read again. */
  method CheckResponse(r: Response) returns (err: Option<ErrorResponse>)
    requires r.Body.Valid()
    modifies r, r.Body
    ensures r.Body.Valid()
    ensures IsSuccess(r.StatusCode) ==> err == None && r.Body == old(r.Body) && unchanged(r.Body)
    ensures !IsSuccess(r.StatusCode) ==>
      var b := old(r.Body);
      var d := b.data[old(b.offset)..];
      && err == Some(ErrorResponseOf(r, b.json(d)))
      && fresh(r.Body) && r.Body.data == d && r.Body.json == b.json && r.Body.nopCloser
      && r.Body.offset == 0 && !r.Body.closed
      && b.offset == |b.data| && b.closed == old(b.closed)
  {
    var c := r.StatusCode;
    if 200 <= c && c <= 299 {
      return None;
    }
    var b := r.Body;
    var data := b.ReadAll();
    var e := ErrorResponseOf(r, b.json(data));
    r.Body := new Body(data, b.json, true);
    err := Some(e);
  }

  // ----- Do ------------------------------------------------------------------

  /** maxBodySlurpSize, 2 << 10. */
  const MaxBodySlurpSize: int := 2 * 1024

  /** Where the deferred drain leaves a body read up to `offset`: CopyN of
      maxBodySlurpSize bytes when the length is unknown (-1) or at most
      maxBodySlurpSize. */
  function Drained(offset: nat, size: nat, contentLength: int): (r: nat)
    ensures offset <= size ==> offset <= r <= size && r - offset <= MaxBodySlurpSize
    ensures contentLength > MaxBodySlurpSize ==> r == offset
    ensures contentLength <= MaxBodySlurpSize && offset <= size && size - offset <= MaxBodySlurpSize ==> r == size
  {
    if contentLength == -1 || contentLength <= MaxBodySlurpSize then Min(offset + MaxBodySlurpSize, size)
    else offset
  }

  /** The error Do reports when the transport fails: ctx.Err() once the
      context is done, the transport's own error otherwise. */
  function FailureError(ctx: Context, fault: TransportFault): (e: ClientError)
    ensures e.ContextError? <==> ctx.Done?
    ensures e.ContextError? ==> e.reason == ctx.cause
    ensures !e.ContextError? ==> e == Transport(fault)
  {
    if ctx.Done? then ContextError(ctx.cause) else Transport(fault)
  }

  /** Decoder errors as Do reports them: io.EOF (an empty body) is not one. */
  function ReportedDecodeError(e: Option<DecodeError>): (r: Option<ClientError>)
  {
    if e.Some? && e.value != EndOfInput then Some(Decode(e.value)) else None
  }

  /** The `if v != nil` block of Do: a writer receives the whole body; any
      other destination is decoded from it, and io.EOF, the error of an empty
      body, is not reported. */
  method Deliver(b: Body, v: Destination) returns (err: Option<ClientError>)
    requires b.Valid() && b.offset == 0
    modifies b, v.Objects()
    ensures b.Valid() && b.closed == old(b.closed)
    ensures v.NoDestination? ==> err == None && b.offset == 0
    ensures v.WriterTo? ==> err == None && v.sink.contents == old(v.sink.contents) + b.data && b.offset == |b.data|
    ensures v.HeroesTarget? ==>
      var (rs, md, e) := DecodeHeroesStream(old(v.heroes.Results), old(v.heroes.Metadata), b.json(b.data));
      v.heroes.Results == rs && v.heroes.Metadata == md && err == ReportedDecodeError(e)
      && b.offset == |b.data|
    ensures v.DocumentTarget? ==>
      var reading := b.json(b.data);
      && err == (if reading.Malformed? then Some(Decode(SyntaxError)) else None)
      && v.doc.value == (if reading.Value? || reading.ValueThenMore?
                         then (if reading.value.JNull? then None else Some(reading.value))
                         else old(v.doc.value))
      && b.offset == |b.data|
  {
    err := None;
    match v
    case NoDestination =>
    case WriterTo(w) =>
      var d := b.ReadAll();
      w.Write(d);
    case HeroesTarget(h) =>
      var d := b.ReadAll();
      var e := h.Decode(b.json(d));
      err := ReportedDecodeError(e);
    case DocumentTarget(doc) =>
      var d := b.ReadAll();
      var e := doc.Decode(b.json(d));
      err := ReportedDecodeError(e);
  }

  /** The function Do defers: drain what is left of resp.Body, as it is by
      then, up to maxBodySlurpSize bytes when the length is unknown or small,
      and close it. */
  method DrainAndClose(r: Response)
    requires r.Body.Valid()
    modifies r.Body
    ensures r.Body.Valid()
    ensures r.Body.offset == Drained(old(r.Body.offset), |r.Body.data|, r.ContentLength)
    ensures r.Body.closed == (old(r.Body.closed) || !r.Body.nopCloser)
  {
    if r.ContentLength == -1 || r.ContentLength <= MaxBodySlurpSize {
      r.Body.CopyN(MaxBodySlurpSize);
    }
    r.Body.Close();
  }

  /** A Client: the transport and the base URL requests are resolved against. */
  class Client {
    const client: HttpClient
    var BaseURL: Url

    /** NewClient: a fresh transport and the default base URL. */
    constructor NewClient(answer: RoundTrip)
      ensures fresh(client) && client.answer == answer && client.sent == []
      ensures BaseURL == DefaultBaseURL
    {
      client := new HttpClient(answer);
      BaseURL := DefaultBaseURL;
    }

    /** NewRequest: the base URL's path must end in '/'; urlStr is parsed and
        resolved against the base URL; the method must be a token (the empty
        method means GET); the request carries Content-Type: application/json
        and a background context. */
    function NewRequest(verb: string, urlStr: string): (r: Result<Request, ClientError>)
      reads this
      requires !Unmodelled(urlStr)
      ensures r.Success? <==>
        HasTrailingSlash(BaseURL.path) && ParseReference(urlStr).Success? && ValidMethod(DefaultMethod(verb))
      ensures !HasTrailingSlash(BaseURL.path) ==> r == Failure(MissingTrailingSlash(BaseURL))
      ensures HasTrailingSlash(BaseURL.path) && ParseReference(urlStr).Failure? ==>
        r == Failure(UrlParse(urlStr, ParseReference(urlStr).error))
      ensures r.Success? ==>
        && r.value.Method == DefaultMethod(verb)
        && r.value.URL == Resolve(BaseURL, ParseReference(urlStr).value)
        && r.value.Header == JsonContentType
        && r.value.ctx == Live
    {
      if !HasTrailingSlash(BaseURL.path) then Failure(MissingTrailingSlash(BaseURL))
      else match ParseReference(urlStr)
        case Failure(e) => Failure(UrlParse(urlStr, e))
        case Success(ref) =>
          var m := DefaultMethod(verb);
          if !ValidMethod(m) then Failure(InvalidMethod(m))
          else Success(Request(m, Resolve(BaseURL, ref), JsonContentType, Live))
    }

    /** Do sends req with ctx (None is a nil context, which sends nothing),
        checks the status, decodes a successful body into v, and in every case
        where a response arrived drains and closes resp.Body. After a failed
        status, resp.Body is CheckResponse's NopCloser, so the drain reads it
        and the close does nothing, while the original body has been read to
        its end and is left as it was. */
    method Do(ctx: Option<Context>, req: Request, v: Destination)
      returns (resp: Option<Response>, err: Option<ClientError>)
      requires client.Ready()
      modifies client, client.Answered(), v.Objects()
      ensures ctx.None? ==>
        resp == None && err == Some(NilContext) && client.sent == old(client.sent)
        && unchanged(old(client.Answered())) && unchanged(v.Objects())
      ensures ctx.Some? ==> client.sent == old(client.sent) + [req.(ctx := ctx.value)]
      ensures ctx.Some? && client.answer.Failed? ==>
        resp == None && err == Some(FailureError(ctx.value, client.answer.fault))
        && unchanged(v.Objects())
      ensures ctx.Some? && client.answer.Received? ==> resp == Some(client.answer.response)
      ensures ctx.Some? && client.answer.Received? && !IsSuccess(client.answer.response.StatusCode) ==>
        var r := client.answer.response;
        var b := old(r.Body);
        && err == Some(Status(ErrorResponseOf(r, b.json(b.data))))
        && b.offset == |b.data| && !b.closed
        && fresh(r.Body) && r.Body.data == b.data && r.Body.nopCloser && !r.Body.closed
        && r.Body.offset == Drained(0, |b.data|, r.ContentLength)
        && unchanged(v.Objects())
      ensures ctx.Some? && client.answer.Received? && IsSuccess(client.answer.response.StatusCode) ==>
        var r := client.answer.response;
        var b := r.Body;
        && b == old(r.Body) && b.closed
        && (v.NoDestination? ==> err == None && b.offset == Drained(0, |b.data|, r.ContentLength))
        && (v.WriterTo? ==> err == None && v.sink.contents == old(v.sink.contents) + b.data && b.offset == |b.data|)
        && (v.HeroesTarget? ==>
              var (rs, md, e) := DecodeHeroesStream(old(v.heroes.Results), old(v.heroes.Metadata), b.json(b.data));
              v.heroes.Results == rs && v.heroes.Metadata == md && err == ReportedDecodeError(e)
              && b.offset == |b.data|)
        && (v.DocumentTarget? ==>
              var reading := b.json(b.data);
              && err == (if reading.Malformed? then Some(Decode(SyntaxError)) else None)
              && v.doc.value == (if reading.Value? || reading.ValueThenMore?
                                 then (if reading.value.JNull? then None else Some(reading.value))
                                 else old(v.doc.value))
              && b.offset == |b.data|)
    {
      if ctx.None? {
        return None, Some(NilContext);
      }
      var req' := req.(ctx := ctx.value);
      var rt := client.Do(req');
      if rt.Failed? {
        if ctx.value.Done? {
          return None, Some(ContextError(ctx.value.cause));
        }
        return None, Some(Transport(rt.fault));
      }
      var r := rt.response;
      var check := CheckResponse(r);
      if check.Some? {
        err := Some(Status(check.value));
      } else {
        err := Deliver(r.Body, v);
      }
      DrainAndClose(r);
      resp := Some(r);
    }
  }

  // ----- Properties ----------------------------------------------------------

  /** The client's default base URL is defaultBaseURL read back. */
  lemma DefaultBaseURLString()
    ensures UrlString(DefaultBaseURL) == DefaultBaseURLText
    ensures HasTrailingSlash(DefaultBaseURL.path)
  {
  }

  /** A relative path made of path characters only is appended to the base
      path: the request goes to base path + urlStr, with no query or fragment. */
  lemma NewRequestAppendsPath(c: Client, verb: string, urlStr: string)
    requires HasTrailingSlash(c.BaseURL.path) && c.BaseURL.path[0] == '/'
    requires urlStr != [] && urlStr[0] != '/'
    requires forall i | 0 <= i < |urlStr| :: PathChar(urlStr[i])
    requires NoDotSegments(c.BaseURL.path + urlStr)
    requires ValidMethod(DefaultMethod(verb))
    ensures !Unmodelled(urlStr)
    ensures c.NewRequest(verb, urlStr)
      == Success(Request(DefaultMethod(verb), c.BaseURL.(path := c.BaseURL.path + urlStr, query := None, fragment := ""),
                         JsonContentType, Live))
  {
    PlainRelativeReference(urlStr);
    ResolveRelativePlain(c.BaseURL.path, urlStr);
    var u := c.BaseURL.(path := c.BaseURL.path + urlStr, query := None, fragment := "");
    assert Resolve(c.BaseURL, Reference(urlStr, None, "")) == u;
    var r := c.NewRequest(verb, urlStr);
    assert r.Success? && r.value.URL == u;
    assert r.value == Request(DefaultMethod(verb), u, JsonContentType, Live);
  }

  /** A relative reference of path characters only is read as its path. */
  lemma PlainRelativeReference(urlStr: string)
    requires urlStr != [] && urlStr[0] != '/'
    requires forall i | 0 <= i < |urlStr| :: PathChar(urlStr[i])
    ensures !Unmodelled(urlStr) && ParseReference(urlStr) == Success(Reference(urlStr, None, ""))
  {
    assert !(|urlStr| >= 2 && urlStr[..2] == "//") by {
      if |urlStr| >= 2 {
        assert urlStr[..2][0] == urlStr[0];
      }
    }
    PlainReference(urlStr);
  }

  /** An absolute path made of path characters only replaces the base path,
      as NewRequest(GET, "/foo") on the default client asks for
      https://api.epicsevendb.com/foo. */
  lemma NewRequestAbsolutePath(c: Client, verb: string, urlStr: string)
    requires HasTrailingSlash(c.BaseURL.path)
    requires urlStr != [] && urlStr[0] == '/' && !(|urlStr| >= 2 && urlStr[1] == '/')
    requires forall i | 0 <= i < |urlStr| :: PathChar(urlStr[i])
    requires NoDotSegments(urlStr)
    requires ValidMethod(DefaultMethod(verb))
    ensures !Unmodelled(urlStr)
    ensures c.NewRequest(verb, urlStr)
      == Success(Request(DefaultMethod(verb), c.BaseURL.(path := urlStr, query := None, fragment := ""),
                         JsonContentType, Live))
  {
    assert !(|urlStr| >= 2 && urlStr[..2] == "//") by {
      if |urlStr| >= 2 {
        assert urlStr[..2][1] == urlStr[1];
      }
    }
    PlainReference(urlStr);
    assert ParseReference(urlStr) == Success(Reference(urlStr, None, ""));
    ResolveAbsolutePlain(c.BaseURL.path, urlStr);
    assert Resolve(c.BaseURL, Reference(urlStr, None, ""))
      == c.BaseURL.(path := urlStr, query := None, fragment := "");
  }

  lemma GetIsValid()
    ensures ValidMethod("GET") && DefaultMethod("GET") == "GET"
  {
    assert IsTokenChar('G') && IsTokenChar('E') && IsTokenChar('T');
  }

  /** NewRequest("GET", ":") is a URL parse error. */
  lemma NewRequestMissingScheme(c: Client)
    requires HasTrailingSlash(c.BaseURL.path)
    ensures !Unmodelled(":")
    ensures c.NewRequest("GET", ":") == Failure(UrlParse(":", MissingScheme))
  {
    assert Cut(":", '#') == (":", [], false);
    assert !HasControl(":");
  }

  /** A method with a space in it is refused. */
  lemma NewRequestBadMethod(c: Client)
    requires HasTrailingSlash(c.BaseURL.path)
    ensures !Unmodelled(".")
    ensures c.NewRequest("bad method", ".") == Failure(InvalidMethod("bad method"))
  {
    PlainReference(".");
    assert !IsTokenChar("bad method"[3]);
  }

  /** Without a trailing slash on the base path nothing is parsed. */
  lemma NewRequestNeedsTrailingSlash(c: Client, verb: string, urlStr: string)
    requires !Unmodelled(urlStr)
    requires c.BaseURL.path == "/api/v3" || c.BaseURL.path == ""
    ensures c.NewRequest(verb, urlStr) == Failure(MissingTrailingSlash(c.BaseURL))
  {
  }

  /** A 202 Accepted counts as success, although the comment on CheckResponse
      calls it an error: only the code's 200..299 range decides. */
  lemma AcceptedIsSuccess()
    ensures IsSuccess(202)
    ensures !IsSuccess(199) && !IsSuccess(300) && !IsSuccess(400)
    ensures forall code :: IsSuccess(code) <==> 200 <= code <= 299
  {
  }

  /** Whatever the API writes for an error (message, stack, metadata),
      CheckResponse reads back into the ErrorResponse. */
  lemma ErrorBodyRoundTrip(message: string, stack: string, md: Metadata)
    ensures ErrorDetails(Value(EncodeErrorBody(message, stack, md))) == (message, stack, md)
  {
    var m := StringMembers("error", message) + StringMembers("stack", stack) + map["meta" := EncodeMetadata(md)];
    assert EncodeErrorBody(message, stack, md) == JObject(m);
    MetadataRoundTrip(md);
    assert m["meta"] == EncodeMetadata(md);
    if message != "" {
      assert m["error"] == JString(message);
    } else {
      assert "error" !in m;
    }
    if stack != "" {
      assert m["stack"] == JString(stack);
    } else {
      assert "stack" !in m;
    }
  }

  lemma MetadataRoundTrip(md: Metadata)
    ensures EncodeMetadata(md).JObject?
    ensures MetadataMember(map["meta" := EncodeMetadata(md)], "meta", NoMetadata) == (md, false)
    ensures forall tag | tag != "meta" :: MetadataMember(map["meta" := EncodeMetadata(md)], tag, NoMetadata) == (NoMetadata, false)
  {
    var f := StringMembers("requestDate", md.RequestDate) + StringMembers("apiVersion", md.APIVersion);
    if md.RequestDate != "" {
      assert f["requestDate"] == JString(md.RequestDate);
    } else {
      assert "requestDate" !in f;
    }
    if md.APIVersion != "" {
      assert f["apiVersion"] == JString(md.APIVersion);
    } else {
      assert "apiVersion" !in f;
    }
  }

  /** A body that is not exactly one JSON value, the empty body among them,
      leaves the ErrorResponse empty. */
  lemma EmptyErrorBody(b: Body)
    requires b.Valid()
    ensures ErrorDetails(b.json([])) == ("", "", NoMetadata)
    ensures forall d: seq<byte> | !b.json(d).Value? :: ErrorDetails(b.json(d)) == ("", "", NoMetadata)
  {
    assert b.json([]).NoValue?;
  }

  /** With Metadata tagged "meta" (the corrected decode), the heroes an API
      answer lists come back from decoding it, and so does its metadata. */
  lemma HeroesRoundTrip(results: seq<Option<Hero>>, md: Metadata)
    ensures DecodeHeroes(HeroesMetadataTag, [], NoMetadata, EncodeHeroes(HeroesMetadataTag, results, md))
      == (results, md, false)
  {
    var items := seq(|results|, i requires 0 <= i < |results| =>
                   if results[i].Some? then JObject(results[i].value.members) else JNull);
    var m := (if results == [] then map[] else map["results" := JArray(items)])
             + map[HeroesMetadataTag := EncodeMetadata(md)];
    assert EncodeHeroes(HeroesMetadataTag, results, md) == JObject(m);
    MetadataRoundTrip(md);
    assert m[HeroesMetadataTag] == EncodeMetadata(md);
    if results != [] {
      assert m["results"] == JArray(items);
      assert seq(|items|, i requires 0 <= i < |items| => HeroElement(items[i])) == results;
      assert forall i | 0 <= i < |items| :: IsHeroOrNull(items[i]);
    }
  }

  /** Decoding only ever yields as many results as the answer lists: the
      results member is replaced element for element, an element is nil
      exactly when it is null, an object becomes the hero it describes, and
      an element of another type is a zero hero and a type error. */
  lemma ResultsFollowArray(m: map<string, JsonValue>, prior: seq<Option<Hero>>)
    requires "results" in m && m["results"].JArray?
    ensures |ResultsMember(m, prior).0| == |m["results"].items|
    ensures forall i | 0 <= i < |m["results"].items| ::
              ResultsMember(m, prior).0[i].None? <==> m["results"].items[i].JNull?
    ensures forall i | 0 <= i < |m["results"].items| && m["results"].items[i].JObject? ::
              ResultsMember(m, prior).0[i] == Some(Hero(m["results"].items[i].members))
    ensures forall i | 0 <= i < |m["results"].items| && !IsHeroOrNull(m["results"].items[i]) ::
              ResultsMember(m, prior).0[i] == Some(Hero(map[])) && ResultsMember(m, prior).1
  {
  }

  /** As written, HeroesResponse.Metadata is tagged "metadata", but the API
      sends its metadata under "meta" (the member ErrorResponse reads): the
      results of an answer come through and its metadata never does. */
  lemma MetadataTagAsWrittenLosesMetadata(results: seq<Option<Hero>>, md: Metadata)
    ensures DecodeHeroes(HeroesMetadataTagAsWritten, [], NoMetadata, EncodeHeroes(HeroesMetadataTag, results, md))
      == (results, NoMetadata, false)
    ensures DecodeHeroesStream([], NoMetadata, Value(EncodeHeroes(HeroesMetadataTag, results, md)))
      == (results, NoMetadata, None)
  {
    HeroesRoundTrip(results, md);
    var items := seq(|results|, i requires 0 <= i < |results| =>
                   if results[i].Some? then JObject(results[i].value.members) else JNull);
    var m := (if results == [] then map[] else map["results" := JArray(items)])
             + map[HeroesMetadataTag := EncodeMetadata(md)];
    assert EncodeHeroes(HeroesMetadataTag, results, md) == JObject(m);
    assert HeroesMetadataTagAsWritten !in m;
  }
}
