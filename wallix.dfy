/**
 * The client of the bastion's management API (package wallix): how a request
 * is built from a method, a URL, query parameters and optional basic-auth
 * credentials, how the response is classified, and the request each endpoint
 * function issues.
 *
 * The network is a function from the request built to the response received
 * (`Client`); whether Go's URL parser accepts a URL and how encoding/json
 * parses a body are likewise parameters (`Stdlib`), as are the wall clock and
 * the local-time formatter (`Clock`).
 */
module Wallix {
  import opened Wrappers
  import opened Json

  /** The layout the API expects on date parameters, in Go's reference-time notation. */
  const TimeFormat := "2006-01-02 15:04:05"

  const StatusOK := 200
  const StatusNoContent := 204

  /** Go's time.Minute, in nanoseconds. */
  const Minute := 60_000_000_000

  datatype Method = Get | Post

  datatype BasicAuth = BasicAuth(username: string, password: string)

  /**
   * A request as handed to the HTTP client. `query` is the request's url.Values:
   * each key with the values added to it, in order. The URL string itself
   * carries no query in this model.
   */
  datatype Request = Request(httpMethod: Method, url: string, query: map<string, seq<string>>, auth: Option<BasicAuth>)

  /** What the HTTP client returns: a transport failure, or a status and the full body text. */
  datatype Response = TransportFailure | Reply(status: int, body: string)

  /** The bastion as seen through one HTTP client, session cookie included. */
  type Client = Request -> Response

  /**
   * Library behaviour taken as given: whether request construction accepts a
   * URL (net/url), and the JSON value a body parses to, if any (encoding/json).
   */
  datatype Stdlib = Stdlib(urlOk: string -> bool, decode: string -> Option<Json>)

  /** The current time in nanoseconds and Go's local-time rendering of a time with a layout (Time.Format). */
  datatype Clock = Clock(now: int, format: (string, int) -> string)

  datatype Shape = ListShape | ObjectShape

  datatype Error =
    | RequestError(url: string)                 // the request could not be created
    | TransportError(url: string)               // the request could not be done
    | StatusError(status: int, text: string)    // any status but 200 and 204, with the plain-text body
    | DecodeError(shape: Shape, body: string)   // a success body that is not the expected JSON

  /** The query a request carries for the parameters given (`None` is Go's nil map). */
  function Query(params: Option<map<string, string>>): (q: map<string, seq<string>>)
    ensures params.None? ==> q == map[]
    ensures params.Some? ==> q.Keys == params.value.Keys
    ensures params.Some? ==> forall k :: k in q ==> q[k] == [params.value[k]]
  {
    if params.None? then map[] else map k | k in params.value :: [params.value[k]]
  }

  /** url.Values.Add: append `v` to the values already held for `k`. */
  function AddValue(q: map<string, seq<string>>, k: string, v: string): map<string, seq<string>>
  {
    q[k := (if k in q then q[k] else []) + [v]]
  }

  /** The request doRequest hands to the client. */
  function RequestFor(httpMethod: Method, url: string, params: Option<map<string, string>>, auth: Option<BasicAuth>): Request
  {
    Request(httpMethod, url, Query(params), auth)
  }

  /** How doRequest turns the client's response into a body or an error. */
  function Classify(url: string, res: Response): (r: Result<string, Error>)
    ensures r.Ok? <==> res.Reply? && (res.status == StatusOK || res.status == StatusNoContent)
    ensures r.Ok? ==> r.value == res.body
    ensures res.TransportFailure? ==> r == Err(TransportError(url))
    ensures res.Reply? && r.Err? ==> r == Err(StatusError(res.status, res.body))
  {
    match res
    case TransportFailure => Err(TransportError(url))
    case Reply(status, body) =>
      if status == StatusNoContent then Ok(body)
      else if status != StatusOK then Err(StatusError(status, body))
      else Ok(body)
  }

  /** The outcome of doRequest. */
  function Outcome(client: Client, lib: Stdlib, httpMethod: Method, url: string,
                   params: Option<map<string, string>>, auth: Option<BasicAuth>): Result<string, Error>
  {
    if !lib.urlOk(url) then Err(RequestError(url))
    else Classify(url, client(RequestFor(httpMethod, url, params, auth)))
  }

  /**
   * doRequest: build the request, add every parameter to its query, set the
   * credentials if any, send it and classify the response.
   */
  method DoRequest(client: Client, lib: Stdlib, httpMethod: Method, url: string,
                   params: Option<map<string, string>>, auth: Option<BasicAuth>)
    returns (r: Result<string, Error>)
    ensures r == Outcome(client, lib, httpMethod, url, params, auth)
  {
    if !lib.urlOk(url) {
      return Err(RequestError(url));
    }
    var query: map<string, seq<string>> := map[];
    if params.Some? {
      var pending := params.value.Keys;
      while pending != {}
        invariant pending <= params.value.Keys
        invariant query.Keys == params.value.Keys - pending
        invariant forall k :: k in query ==> query[k] == [params.value[k]]
        decreases pending
      {
        var k :| k in pending;
        query := AddValue(query, k, params.value[k]);
        pending := pending - {k};
      }
    }
    assert query == Query(params);
    var req := Request(httpMethod, url, query, auth);
    var res := client(req);
    match res {
      case TransportFailure =>
        return Err(TransportError(url));
      case Reply(status, body) =>
        if status == StatusNoContent {
          return Ok(body);
        }
        if status != StatusOK {
          // The body has already been read to its end, so decoding a structured
          // API error from the response stream fails: the error is the plain text.
          return Err(StatusError(status, body));
        }
        return Ok(body);
    }
  }

  /** An endpoint call: the URL and the query parameters a Get function passes. */
  datatype Call = Call(url: string, params: Option<map<string, string>>)

  /** The request a GET on `c` sends: no credentials, the session cookie is relied on. */
  function GetRequest(c: Call): Request
  {
    RequestFor(Get, c.url, c.params, None)
  }

  /** Decoding a success body into `[]map[string]interface{}`. */
  function DecodeList(lib: Stdlib, body: string): Result<seq<Object>, Error>
  {
    match lib.decode(body)
    case None => Err(DecodeError(ListShape, body))
    case Some(j) =>
      match AsObjectList(j)
      case None => Err(DecodeError(ListShape, body))
      case Some(xs) => Ok(xs)
  }

  /** Decoding a success body into `map[string]interface{}`. */
  function DecodeObject(lib: Stdlib, body: string): Result<Object, Error>
  {
    match lib.decode(body)
    case None => Err(DecodeError(ObjectShape, body))
    case Some(j) =>
      match AsObject(j)
      case None => Err(DecodeError(ObjectShape, body))
      case Some(o) => Ok(o)
  }

  /** The outcome of QuerySchemes on a call. */
  function ListOutcome(client: Client, lib: Stdlib, c: Call): Result<seq<Object>, Error>
  {
    match Outcome(client, lib, Get, c.url, c.params, None)
    case Err(e) => Err(e)
    case Ok(body) => DecodeList(lib, body)
  }

  /** The outcome of QueryScheme on a call. */
  function ObjectOutcome(client: Client, lib: Stdlib, c: Call): Result<Object, Error>
  {
    match Outcome(client, lib, Get, c.url, c.params, None)
    case Err(e) => Err(e)
    case Ok(body) => DecodeObject(lib, body)
  }

  /** GET a JSON list of objects. */
  method QuerySchemes(client: Client, lib: Stdlib, url: string, params: Option<map<string, string>>)
    returns (r: Result<seq<Object>, Error>)
    ensures r == ListOutcome(client, lib, Call(url, params))
  {
    var body := DoRequest(client, lib, Get, url, params, None);
    if body.Err? {
      return Err(body.error);
    }
    var decoded := lib.decode(body.value);
    var results := if decoded.Some? then AsObjectList(decoded.value) else None;
    if results.None? {
      return Err(DecodeError(ListShape, body.value));
    }
    return Ok(results.value);
  }

  /** GET a single JSON object. */
  method QueryScheme(client: Client, lib: Stdlib, url: string, params: Option<map<string, string>>)
    returns (r: Result<Object, Error>)
    ensures r == ObjectOutcome(client, lib, Call(url, params))
  {
    var body := DoRequest(client, lib, Get, url, params, None);
    if body.Err? {
      return Err(body.error);
    }
    var decoded := lib.decode(body.value);
    var result := if decoded.Some? then AsObject(decoded.value) else None;
    if result.None? {
      return Err(DecodeError(ObjectShape, body.value));
    }
    return Ok(result.value);
  }

  /** The request Authenticate sends. */
  function LoginRequest(url: string, user: string, password: string): Request
  {
    RequestFor(Post, url, None, Some(BasicAuth(user, password)))
  }

  /** The outcome of Authenticate: `None` is success. */
  function AuthOutcome(client: Client, lib: Stdlib, url: string, user: string, password: string): Option<Error>
  {
    match Outcome(client, lib, Post, url, None, Some(BasicAuth(user, password)))
    case Ok(_) => None
    case Err(e) => Some(e)
  }

  /** Log in with basic auth; the client keeps the session cookie. */
  method Authenticate(client: Client, lib: Stdlib, url: string, user: string, password: string)
    returns (err: Option<Error>)
    ensures err == AuthOutcome(client, lib, url, user, password)
  {
    var r := DoRequest(client, lib, Post, url, None, Some(BasicAuth(user, password)));
    err := if r.Err? then Some(r.error) else None;
  }

  // ---------------------------------------------------------------- endpoints

  function UsersCall(base: string): Call
  {
    Call(base + "/users", Some(map["limit" := "-1", "fields" := "user_name"]))
  }

  function GroupsCall(base: string): Call
  {
    Call(base + "/usergroups", Some(map["limit" := "-1", "fields" := "id"]))
  }

  function DevicesCall(base: string): Call
  {
    Call(base + "/devices", Some(map["limit" := "-1", "fields" := "id"]))
  }

  /** The start of the closed-sessions window: `minutes` before now. */
  function FromDate(clock: Clock, minutes: int): int
  {
    clock.now - Minute * minutes
  }

  function ClosedSessionsCall(base: string, clock: Clock, minutes: int): Call
  {
    Call(base + "/sessions",
         Some(map["limit" := "-1", "fields" := "id", "date_field" := "end", "status" := "closed",
                  "from_date" := clock.format(TimeFormat, FromDate(clock, minutes))]))
  }

  function CurrentSessionsCall(base: string): Call
  {
    Call(base + "/sessions", Some(map["limit" := "-1", "fields" := "id", "status" := "current"]))
  }

  function TargetsCall(base: string, targetType: string): Call
  {
    Call(base + "/targets/" + targetType, Some(map["limit" := "-1", "fields" := "id"]))
  }

  function EncryptionCall(base: string): Call
  {
    Call(base + "/encryption", None)
  }

  function LicenseCall(base: string): Call
  {
    Call(base + "/licenseinfo", None)
  }

  method GetUsers(client: Client, lib: Stdlib, base: string) returns (r: Result<seq<Object>, Error>)
    ensures r == ListOutcome(client, lib, UsersCall(base))
  {
    var c := UsersCall(base);
    r := QuerySchemes(client, lib, c.url, c.params);
  }

  method GetGroups(client: Client, lib: Stdlib, base: string) returns (r: Result<seq<Object>, Error>)
    ensures r == ListOutcome(client, lib, GroupsCall(base))
  {
    var c := GroupsCall(base);
    r := QuerySchemes(client, lib, c.url, c.params);
  }

  method GetDevices(client: Client, lib: Stdlib, base: string) returns (r: Result<seq<Object>, Error>)
    ensures r == ListOutcome(client, lib, DevicesCall(base))
  {
    var c := DevicesCall(base);
    r := QuerySchemes(client, lib, c.url, c.params);
  }

  method GetClosedSessions(client: Client, lib: Stdlib, clock: Clock, base: string, minutes: int)
    returns (r: Result<seq<Object>, Error>)
    ensures r == ListOutcome(client, lib, ClosedSessionsCall(base, clock, minutes))
  {
    var c := ClosedSessionsCall(base, clock, minutes);
    r := QuerySchemes(client, lib, c.url, c.params);
  }

  method GetCurrentSessions(client: Client, lib: Stdlib, base: string) returns (r: Result<seq<Object>, Error>)
    ensures r == ListOutcome(client, lib, CurrentSessionsCall(base))
  {
    var c := CurrentSessionsCall(base);
    r := QuerySchemes(client, lib, c.url, c.params);
  }

  method GetTargets(client: Client, lib: Stdlib, base: string, targetType: string)
    returns (r: Result<seq<Object>, Error>)
    ensures r == ListOutcome(client, lib, TargetsCall(base, targetType))
  {
    var c := TargetsCall(base, targetType);
    r := QuerySchemes(client, lib, c.url, c.params);
  }

  method GetEncryption(client: Client, lib: Stdlib, base: string) returns (r: Result<Object, Error>)
    ensures r == ObjectOutcome(client, lib, EncryptionCall(base))
  {
    var c := EncryptionCall(base);
    r := QueryScheme(client, lib, c.url, c.params);
  }

  method GetLicense(client: Client, lib: Stdlib, base: string) returns (r: Result<Object, Error>)
    ensures r == ObjectOutcome(client, lib, LicenseCall(base))
  {
    var c := LicenseCall(base);
    r := QueryScheme(client, lib, c.url, c.params);
  }

  // ---------------------------------------------------------------- properties

  /**
   * doRequest end to end: a URL the request constructor refuses is a request
   * error and nothing is sent; otherwise the request sent carries exactly the
   * method, URL, one query value per parameter and the credentials given, and
   * only 200 and 204 succeed, with the body read.
   */
  lemma DoRequestCases(client: Client, lib: Stdlib, httpMethod: Method, url: string,
                       params: Option<map<string, string>>, auth: Option<BasicAuth>)
    ensures var r := Outcome(client, lib, httpMethod, url, params, auth);
            !lib.urlOk(url) ==> r == Err(RequestError(url))
    ensures var r := Outcome(client, lib, httpMethod, url, params, auth);
            var req := RequestFor(httpMethod, url, params, auth);
            lib.urlOk(url) ==>
              && req.httpMethod == httpMethod && req.url == url && req.auth == auth
              && (params.None? ==> req.query == map[])
              && (params.Some? ==> req.query.Keys == params.value.Keys &&
                                   forall k :: k in params.value ==> req.query[k] == [params.value[k]])
              && (r.Ok? <==> client(req).Reply? && client(req).status in {StatusOK, StatusNoContent})
              && (r.Ok? ==> r.value == client(req).body)
              && (client(req).TransportFailure? ==> r == Err(TransportError(url)))
              && (client(req).Reply? && r.Err? ==> r == Err(StatusError(client(req).status, client(req).body)))
  {
  }

  /**
   * QuerySchemes end to end: it succeeds exactly when doRequest does and the
   * body parses to a JSON array of objects (or to null, the empty list); every
   * failure names its cause.
   */
  lemma ListOutcomeCases(client: Client, lib: Stdlib, c: Call)
    ensures var r := ListOutcome(client, lib, c);
            var body := Outcome(client, lib, Get, c.url, c.params, None);
            && (body.Err? ==> r == Err(body.error))
            && (body.Ok? ==> (r.Ok? <==> lib.decode(body.value).Some? && AsObjectList(lib.decode(body.value).value).Some?))
            && (body.Ok? && r.Ok? ==> r.value == AsObjectList(lib.decode(body.value).value).value)
            && (body.Ok? && r.Err? ==> r == Err(DecodeError(ListShape, body.value)))
  {
  }

  /** QueryScheme end to end, as ListOutcomeCases for a single JSON object. */
  lemma ObjectOutcomeCases(client: Client, lib: Stdlib, c: Call)
    ensures var r := ObjectOutcome(client, lib, c);
            var body := Outcome(client, lib, Get, c.url, c.params, None);
            && (body.Err? ==> r == Err(body.error))
            && (body.Ok? ==> (r.Ok? <==> lib.decode(body.value).Some? && AsObject(lib.decode(body.value).value).Some?))
            && (body.Ok? && r.Ok? ==> r.value == AsObject(lib.decode(body.value).value).value)
            && (body.Ok? && r.Err? ==> r == Err(DecodeError(ObjectShape, body.value)))
  {
  }

  /**
   * A 204 reply passes doRequest, but a GET then has to decode the empty body,
   * which the JSON decoder refuses: the call fails with a decode error.
   */
  lemma NoContentOnGet(client: Client, lib: Stdlib, c: Call)
    requires lib.urlOk(c.url) && client(GetRequest(c)) == Reply(StatusNoContent, "")
    requires lib.decode("") == None
    ensures ListOutcome(client, lib, c) == Err(DecodeError(ListShape, ""))
    ensures ObjectOutcome(client, lib, c) == Err(DecodeError(ObjectShape, ""))
  {
  }

  /**
   * A status error always carries the plain-text body: whatever the body says,
   * a structured API error is never returned.
   */
  lemma StatusErrorIsPlainText(client: Client, lib: Stdlib, c: Call, status: int, body: string)
    requires lib.urlOk(c.url) && client(GetRequest(c)) == Reply(status, body)
    requires status != StatusOK && status != StatusNoContent
    ensures ListOutcome(client, lib, c) == Err(StatusError(status, body))
    ensures ObjectOutcome(client, lib, c) == Err(StatusError(status, body))
  {
  }

  /**
   * Authenticate sends a POST with basic auth and no query parameters, and
   * succeeds exactly when doRequest does: 200 or 204, whatever the body.
   */
  lemma AuthenticateCases(client: Client, lib: Stdlib, url: string, user: string, password: string)
    ensures var req := LoginRequest(url, user, password);
            req == Request(Post, url, map[], Some(BasicAuth(user, password)))
    ensures var err := AuthOutcome(client, lib, url, user, password);
            var res := client(LoginRequest(url, user, password));
            err.None? <==> lib.urlOk(url) && res.Reply? && res.status in {StatusOK, StatusNoContent}
    ensures !lib.urlOk(url) ==> AuthOutcome(client, lib, url, user, password) == Some(RequestError(url))
  {
  }

  /** A call's outcome depends on the client's answer to that call's request and on nothing else it answers. */
  lemma CallLocal(c1: Client, c2: Client, lib: Stdlib, c: Call)
    requires c1(GetRequest(c)) == c2(GetRequest(c))
    ensures ListOutcome(c1, lib, c) == ListOutcome(c2, lib, c)
    ensures ObjectOutcome(c1, lib, c) == ObjectOutcome(c2, lib, c)
  {
  }

  /** A call whose request cannot be done fails, whatever it is. */
  lemma CallDown(client: Client, lib: Stdlib, c: Call)
    requires client(GetRequest(c)) == TransportFailure
    ensures ListOutcome(client, lib, c).Err?
    ensures ObjectOutcome(client, lib, c).Err?
  {
  }

  /** The user, group and device lists ask for every entry (limit -1) and a single field. */
  lemma DirectoryRequests(base: string)
    ensures GetRequest(UsersCall(base)) ==
            Request(Get, base + "/users", map["limit" := ["-1"], "fields" := ["user_name"]], None)
    ensures GetRequest(GroupsCall(base)) ==
            Request(Get, base + "/usergroups", map["limit" := ["-1"], "fields" := ["id"]], None)
    ensures GetRequest(DevicesCall(base)) ==
            Request(Get, base + "/devices", map["limit" := ["-1"], "fields" := ["id"]], None)
  {
  }

  /** A target list asks for every target of its type (limit -1), ids only. */
  lemma TargetsRequest(base: string, targetType: string)
    ensures GetRequest(TargetsCall(base, targetType)) ==
            Request(Get, base + "/targets/" + targetType, map["limit" := ["-1"], "fields" := ["id"]], None)
  {
  }

  /**
   * The current sessions are asked for by status; the closed ones by status
   * and end date, from `minutes` before now as the local clock renders it.
   */
  lemma SessionsRequests(base: string, clock: Clock, minutes: int)
    ensures GetRequest(CurrentSessionsCall(base)) ==
            Request(Get, base + "/sessions", map["limit" := ["-1"], "fields" := ["id"], "status" := ["current"]], None)
    ensures var r := GetRequest(ClosedSessionsCall(base, clock, minutes));
            && r.url == base + "/sessions"
            && r.query.Keys == {"limit", "fields", "date_field", "status", "from_date"}
            && r.query["limit"] == ["-1"] && r.query["fields"] == ["id"]
            && r.query["status"] == ["closed"] && r.query["date_field"] == ["end"]
            && r.query["from_date"] == [clock.format("2006-01-02 15:04:05", clock.now - minutes * Minute)]
  {
  }

  /** Encryption and license carry no query parameters. */
  lemma ObjectRequests(base: string)
    ensures GetRequest(EncryptionCall(base)) == Request(Get, base + "/encryption", map[], None)
    ensures GetRequest(LicenseCall(base)) == Request(Get, base + "/licenseinfo", map[], None)
  {
  }
}
