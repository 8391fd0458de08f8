/**
  A model of the decision and construction rules of the matrix API client:
  base-URL resolution, the JWT claims and the client-credentials token
  exchange, the classification of responses and the normalisation of error
  bodies, and the request descriptors of the four resource calls.

  The HTTP transport, `JSON.parse`, `JSON.stringify`, number formatting and
  the HS512 signer are foreign to this module: they are the functions of a
  `Runtime` value, or the `request`/`post` parameters standing for one
  HTTP exchange. The process environment is a `Config` value and the clock
  a `now` parameter in milliseconds.
 */
module MatrixApi {
  import opened Js

  // ---------------------------------------------------------------------
  // Configuration and foreign collaborators
  // ---------------------------------------------------------------------

  /** The process environment the module reads once at load time:
      NODE_ENV, the OAuth client id and secret and the developer key.
      Unset variables are None. */
  datatype Config = Config(nodeEnv: Option<string>, clientId: Option<string>, secret: Option<string>, devKey: Option<string>)
  {
    /** ENV, the environment name every URL is resolved with. */
    function Env(): string {
      EnvName(nodeEnv)
    }
  }

  /** The JWT claims set: issuer, subject, audience, expiry in epoch seconds. */
  datatype Claims = Claims(iss: string, sub: string, aud: string, exp: int)

  /** The library and engine functions the module calls.
      `parse` is JSON.parse (None when it throws); `stringify` is
      JSON.stringify (a string, or undefined for undefined); `showNumber` is
      the engine's number-to-string conversion; `sign(claims, secret, alg)`
      is jwt-simple's encode. */
  datatype Runtime = Runtime(
    parse: string -> Option<Json>,
    stringify: Json -> Json,
    showNumber: real -> string,
    sign: (Claims, string, string) -> string)

  /** NODE_ENV, or "development" when it is unset or empty. */
  function EnvName(nodeEnv: Option<string>): (env: string)
    ensures env != ""
    ensures nodeEnv.Some? && nodeEnv.value != "" ==> env == nodeEnv.value
    ensures nodeEnv.None? || nodeEnv.value == "" ==> env == "development"
  {
    if nodeEnv.Some? && nodeEnv.value != "" then nodeEnv.value else "development"
  }

  // ---------------------------------------------------------------------
  // Base URLs
  // ---------------------------------------------------------------------

  const BaseUrls: set<string> := {
    "https://api.careerbuilder.com", "https://api.careerbuilder.eu",
    "https://wwwtest.api.careerbuilder.com", "https://wwwtest.api.careerbuilder.eu"
  }

  /** The host for a region and an environment. Any region other than "eu"
      means "com" and any environment other than "production" means the test
      host: unrecognised input is never an error. */
  function GetUrl(region: string, env: string): (url: string)
    ensures env == "production" && region == "eu" ==> url == "https://api.careerbuilder.eu"
    ensures env == "production" && region != "eu" ==> url == "https://api.careerbuilder.com"
    ensures env != "production" && region == "eu" ==> url == "https://wwwtest.api.careerbuilder.eu"
    ensures env != "production" && region != "eu" ==> url == "https://wwwtest.api.careerbuilder.com"
  {
    var host := if env == "production" then "api" else "wwwtest.api";
    var tld := if region == "eu" then "eu" else "com";
    var url := "https://" + host + ".careerbuilder." + tld;
    assert env == "production" ==> url == "https://api.careerbuilder." + tld;
    assert env != "production" ==> url == "https://wwwtest.api.careerbuilder." + tld;
    url
  }

  /** Every one of the four hosts is reached, and nothing else is. */
  lemma GetUrlRange(u: string)
    ensures u in BaseUrls <==> exists region, env :: GetUrl(region, env) == u
  {
    if u == "https://api.careerbuilder.com" {
      assert GetUrl("com", "production") == u;
    } else if u == "https://api.careerbuilder.eu" {
      assert GetUrl("eu", "production") == u;
    } else if u == "https://wwwtest.api.careerbuilder.com" {
      assert GetUrl("com", "development") == u;
    } else if u == "https://wwwtest.api.careerbuilder.eu" {
      assert GetUrl("eu", "development") == u;
    }
  }

  /** Two inputs give the same host exactly when they agree on whether the
      region is "eu" and on whether the environment is "production". */
  lemma GetUrlDistinguishes(r1: string, e1: string, r2: string, e2: string)
    ensures GetUrl(r1, e1) == GetUrl(r2, e2)
        <==> (r1 == "eu") == (r2 == "eu") && (e1 == "production") == (e2 == "production")
  {
    var a, b := GetUrl(r1, e1), GetUrl(r2, e2);
    if (e1 == "production") != (e2 == "production") {
      assert a[8] != b[8];
    } else if (r1 == "eu") != (r2 == "eu") {
      assert a[|a| - 1] != b[|b| - 1];
    }
  }

  const TokenPath := "/oauth/token"

  /** The token endpoint: the host of GetUrl followed by "/oauth/token". */
  function GetTokenUrl(region: string, env: string): (url: string)
    ensures |url| == |GetUrl(region, env)| + 12
    ensures url[..|url| - 12] == GetUrl(region, env)
    ensures url[|url| - 12..] == "/oauth/token"
  {
    GetUrl(region, env) + TokenPath
  }

  // ---------------------------------------------------------------------
  // Claims and signing
  // ---------------------------------------------------------------------

  /** Thirty minutes in milliseconds. */
  const ExpiryWindowMs := 30 * 60 * 1000

  /** The claims for a client id at time `now` (milliseconds since the
      epoch): the client is both issuer and subject, the audience is the
      production token endpoint, and the expiry is thirty minutes later,
      truncated to whole seconds. */
  function GetClaims(clientId: string, now: nat): (c: Claims)
    ensures c.iss == clientId && c.sub == clientId
    ensures c.aud == GetTokenUrl("com", "production")
    ensures c.exp * 1000 <= now + ExpiryWindowMs < c.exp * 1000 + 1000
    ensures c.exp == now / 1000 + 1800
  {
    Claims(clientId, clientId, "https://api.careerbuilder.com/oauth/token", (now + 30 * 60 * 1000) / 1000)
  }

  /** The audience does not follow the environment: outside production the
      assertion names an endpoint other than the one it is posted to. */
  lemma AudienceIsFixed(clientId: string, now: nat, env: string)
    ensures GetClaims(clientId, now).aud == GetTokenUrl("com", "production")
    ensures env != "production" ==> GetClaims(clientId, now).aud != GetTokenUrl("com", env)
  {
    var aud, url := GetClaims(clientId, now).aud, GetTokenUrl("com", env);
    if env != "production" {
      assert aud[8] != url[8];
    }
  }

  const SigningAlgorithm := "HS512"

  /** The signed assertion: the claims encoded with the secret under HS512. */
  function GetJwt(payload: Claims, secret: string, rt: Runtime): (jwt: string)
    ensures jwt == rt.sign(payload, secret, "HS512")
  {
    rt.sign(payload, secret, SigningAlgorithm)
  }

  // ---------------------------------------------------------------------
  // Errors, outcomes, request descriptors
  // ---------------------------------------------------------------------

  /** How a promise of the module is rejected.
      FtError is the application's error class, built from any value;
      PlainError is `new Error(message)`; both may carry the HTTP status in
      `code`. TypeError is a property read on null or undefined,
      ValidationError a failed configuration assertion, and Transport an
      error of the HTTP library passed along unchanged. */
  datatype Failure =
    | FtError(message: Json, code: Option<int>)
    | PlainError(text: string, code: Option<int>)
    | TypeError
    | ValidationError
    | Transport(cause: string)

  /** How a promise of the module ends. Escaped is an exception thrown
      inside the HTTP library's callback, outside any try: it leaves the
      callback and the promise never settles. */
  datatype Outcome<+T> = Resolved(value: T) | Rejected(error: Failure) | Escaped(error: Failure)

  datatype Method = GET | PUT | POST

  /** The options object handed to the HTTP library. */
  datatype Options =
    | FormPost(uri: string, form: map<string, string>)
    | Call(verb: Method, uri: string, headers: map<string, string>, body: Option<Json>)
    | JsonGet(uri: string, qs: map<string, Json>)

  /** What `request` reports: a transport error, or a status and a body. */
  datatype Reply<+B> = Failed(cause: string) | Replied(status: int, body: B)

  /** How request-promise settles: with the parsed body, or with an error
      (its own status errors included). */
  datatype RpResult = RpResolved(body: Json) | RpRejected(cause: string)

  predicate Success(status: int) {
    200 <= status <= 299
  }

  // ---------------------------------------------------------------------
  // Token acquisition
  // ---------------------------------------------------------------------

  /** The configuration check: both client id and secret are non-empty strings. */
  predicate CredentialsValid(cfg: Config)
    ensures CredentialsValid(cfg) ==>
      cfg.clientId.Some? && cfg.secret.Some? && |cfg.clientId.value| > 0 && |cfg.secret.value| > 0
    ensures cfg.clientId.None? || cfg.secret.None? ==> !CredentialsValid(cfg)
    ensures cfg.clientId == Some("") || cfg.secret == Some("") ==> !CredentialsValid(cfg)
  {
    && cfg.clientId.Some? && cfg.clientId.value != ""
    && cfg.secret.Some? && cfg.secret.value != ""
  }

  const JwtBearer := "urn:ietf:params:oauth:client-assertion-type:jwt-bearer"

  const TokenFormFields: set<string> :=
    {"client_assertion_type", "client_assertion", "grant_type", "client_id", "client_secret"}

  /** The token request, built only after the configuration check passes:
      a form post of the five client-credentials fields to the "com" token
      endpoint of the configured environment. */
  function TokenRequest(cfg: Config, now: nat, rt: Runtime): (r: Outcome<Options>)
    ensures r.Resolved? <==> CredentialsValid(cfg)
    ensures !r.Escaped?
    ensures r.Rejected? ==> r.error == ValidationError
    ensures r.Resolved? ==>
      var id, secret := cfg.clientId.value, cfg.secret.value;
      && r.value.FormPost?
      && r.value.uri == GetTokenUrl("com", cfg.Env())
      && r.value.form.Keys == TokenFormFields
      && r.value.form["client_assertion_type"] == JwtBearer
      && r.value.form["client_assertion"] == rt.sign(GetClaims(id, now), secret, "HS512")
      && r.value.form["grant_type"] == "client_credentials"
      && r.value.form["client_id"] == id
      && r.value.form["client_secret"] == secret
  {
    if !CredentialsValid(cfg) then Rejected(ValidationError)
    else
      var id, secret := cfg.clientId.value, cfg.secret.value;
      var url := GetTokenUrl("com", cfg.Env());
      var claims := GetClaims(id, now);
      var form := map[
        "client_assertion_type" := JwtBearer,
        "client_assertion" := GetJwt(claims, secret, rt),
        "grant_type" := "client_credentials",
        "client_id" := id,
        "client_secret" := secret];
      Resolved(FormPost(url, form))
  }

  /** The decision on the token endpoint's answer. A truthy `access_token`
      is the result; any other body rejects with its `error_description`;
      a null or undefined body makes the property read throw. */
  function TokenResponse(reply: RpResult): (r: Outcome<Json>)
    ensures reply.RpRejected? ==> r == Rejected(Transport(reply.cause))
    ensures r.Resolved? <==>
      reply.RpResolved? && !Nullish(reply.body) && Truthy(Member(reply.body, "access_token"))
    ensures r.Resolved? ==> Truthy(r.value) && r.value == Member(reply.body, "access_token")
    ensures reply.RpResolved? && Nullish(reply.body) ==> r == Rejected(TypeError)
    ensures !r.Escaped?
    ensures reply.RpResolved? && !Nullish(reply.body) && !Truthy(Member(reply.body, "access_token")) ==>
      r == Rejected(FtError(Member(reply.body, "error_description"), None))
  {
    match reply
    case RpRejected(cause) => Rejected(Transport(cause))
    case RpResolved(body) =>
      match Get(body, "access_token")
      case Throws => Rejected(TypeError)
      case Value(token) =>
        if Truthy(token) then Resolved(token)
        else Rejected(FtError(Member(body, "error_description"), None))
  }

  /** getToken: validate, build and post the request, decide on the answer.
      `post` is the HTTP exchange. */
  function GetToken(cfg: Config, now: nat, rt: Runtime, post: Options -> RpResult): (r: Outcome<Json>)
    ensures !CredentialsValid(cfg) ==> r == Rejected(ValidationError)
    ensures CredentialsValid(cfg) ==>
      var req := TokenRequest(cfg, now, rt);
      req.Resolved? && r == TokenResponse(post(req.value))
  {
    match TokenRequest(cfg, now, rt)
    case Rejected(e) => Rejected(e)
    case Resolved(options) => TokenResponse(post(options))
  }

  /** Without valid credentials no request is made: the outcome is the same
      whatever the transport would have answered. */
  lemma InvalidCredentialsNeverPost(cfg: Config, now: nat, rt: Runtime, post1: Options -> RpResult, post2: Options -> RpResult)
    requires !CredentialsValid(cfg)
    ensures GetToken(cfg, now, rt, post1) == GetToken(cfg, now, rt, post2) == Rejected(ValidationError)
  {
  }

  /** An empty-string token is falsy and so is refused like a missing one. */
  lemma EmptyTokenIsRefused(fields: map<string, Json>)
    requires "access_token" in fields && fields["access_token"] == Str("")
    ensures TokenResponse(RpResolved(Obj(fields)))
         == Rejected(FtError(if "error_description" in fields then fields["error_description"] else Undefined, None))
  {
  }

  // ---------------------------------------------------------------------
  // Request execution and error normalisation
  // ---------------------------------------------------------------------

  const ApologyPrefix := "Error occurs when call matrix api, "
  const ApologySuffix := ". Sorry for that, you can report it to fulfillment tools team."

  /** The text of the generic error raised for a status other than 400. */
  function Apology(detail: string): (text: string)
    ensures |text| == |ApologyPrefix| + |detail| + |ApologySuffix|
    ensures text[..|ApologyPrefix|] == ApologyPrefix
    ensures text[|text| - |ApologySuffix|..] == ApologySuffix
    ensures text[|ApologyPrefix|..|text| - |ApologySuffix|] == detail
  {
    ApologyPrefix + detail + ApologySuffix
  }

  /** The detail a generic error text carries, if it has the generic form. */
  function ReportedDetail(text: string): (r: Option<string>)
    ensures r.Some? ==> Apology(r.value) == text
  {
    if |text| >= |ApologyPrefix| + |ApologySuffix|
       && text[..|ApologyPrefix|] == ApologyPrefix
       && text[|text| - |ApologySuffix|..] == ApologySuffix
    then
      var detail := text[|ApologyPrefix|..|text| - |ApologySuffix|];
      assert text == text[..|ApologyPrefix|] + detail + text[|text| - |ApologySuffix|..];
      Some(detail)
    else None
  }

  /** The generic error text loses nothing: its detail can be read back. */
  lemma ApologyRoundTrip(detail: string)
    ensures ReportedDetail(Apology(detail)) == Some(detail)
  {
    var text := Apology(detail);
    assert text[|ApologyPrefix|..|text| - |ApologySuffix|] == detail;
  }

  /** `(p.errors || p.Errors)` for a parsed body `p`; throws when `p` is
      null or undefined. */
  function ErrorList(p: Json): (a: Access)
    ensures a.Throws? <==> Nullish(p)
  {
    match Get(p, "errors")
    case Throws => Throws
    case Value(errs) => if Truthy(errs) then Value(errs) else Get(p, "Errors")
  }

  /** The message taken from a failed response's body: the `message` of
      the first element of `errors` (or of `Errors` when `errors` is falsy),
      or the raw body when parsing fails or any read on the way throws. */
  function FirstErrorMessage(body: string, rt: Runtime): (m: Json)
    ensures rt.parse(body).None? ==> m == Str(body)
  {
    match rt.parse(body)
    case None => Str(body)
    case Some(p) =>
      match Then(Then(ErrorList(p), NatKey(0)), "message")
      case Throws => Str(body)
      case Value(message) => message
  }

  /** The message of a 400 response: the body's `ErrorMessage` whenever the
      body parses to a value that is neither null nor undefined (even when
      that field is absent), and otherwise `fallback`. */
  function BadRequestMessage(body: string, rt: Runtime, fallback: Json): (m: Json)
    ensures rt.parse(body).None? ==> m == fallback
  {
    match rt.parse(body)
    case None => fallback
    case Some(p) =>
      match Get(p, "ErrorMessage")
      case Throws => fallback
      case Value(message) => message
  }

  /** The error for a response whose status is not 2xx. */
  function Normalize(status: int, body: string, rt: Runtime): (e: Option<Failure>)
    requires !Success(status)
    ensures e.None? <==> status != 400 && ConversionThrows(FirstErrorMessage(body, rt))
    ensures e.Some? ==>
      && (e.value.FtError? || e.value.PlainError?)
      && (e.value.FtError? <==> status == 400)
      && e.value.code == Some(status)
    ensures e.Some? && e.value.PlainError? ==>
      ReportedDetail(e.value.text) == ToString(FirstErrorMessage(body, rt), rt.showNumber)
  {
    var m := FirstErrorMessage(body, rt);
    if status == 400 then Some(FtError(BadRequestMessage(body, rt, m), Some(status)))
    else
      match ToString(m, rt.showNumber)
      case None => None
      case Some(detail) =>
        ApologyRoundTrip(detail);
        Some(PlainError(Apology(detail), Some(status)))
  }

  /** How sendRequest settles for what `request` reported. Converting a
      status other than 400 into the generic message can throw, and that
      exception escapes the callback. */
  function Settle(reply: Reply<string>, rt: Runtime): (o: Outcome<string>)
    ensures reply.Failed? ==> o == Rejected(Transport(reply.cause))
    ensures reply.Replied? ==>
      (o.Escaped? <==> !Success(reply.status) && reply.status != 400
                       && ConversionThrows(FirstErrorMessage(reply.body, rt)))
    ensures o.Escaped? ==> o.error == TypeError
    ensures reply.Replied? ==> (o.Resolved? <==> Success(reply.status))
    ensures o.Resolved? ==> o.value == reply.body
    ensures reply.Replied? && o.Rejected? ==>
      && (o.error.FtError? || o.error.PlainError?)
      && o.error.code == Some(reply.status)
      && (o.error.FtError? <==> reply.status == 400)
      && (o.error.PlainError? <==> reply.status != 400)
  {
    match reply
    case Failed(cause) => Rejected(Transport(cause))
    case Replied(status, body) =>
      if Success(status) then Resolved(body)
      else
        match Normalize(status, body, rt)
        case Some(e) => Rejected(e)
        case None => Escaped(TypeError)
  }

  /** sendRequest, step by step: the outcome of one exchange. The message
      is built by successive reassignments, each read that would throw
      leading to the fallback of its try/catch. */
  method SendRequest(options: Options, rt: Runtime, request: Options -> Reply<string>) returns (o: Outcome<string>)
    ensures o == Settle(request(options), rt)
  {
    var reply := request(options);
    if reply.Failed? {
      return Rejected(Transport(reply.cause));
    }
    var status, body := reply.status, reply.body;
    if 200 <= status && status <= 299 {
      return Resolved(body);
    }
    var message: Json := Str("");
    var thrown := false;
    var parsed := rt.parse(body);
    if parsed.None? {
      thrown := true;
    } else {
      message := parsed.value;
      var errs := Get(message, "errors");
      if errs.Throws? {
        thrown := true;
      } else {
        var list := errs.v;
        if !Truthy(list) {
          list := Member(message, "Errors");
        }
        var first := Get(list, NatKey(0));
        if first.Throws? {
          thrown := true;
        } else {
          var field := Get(first.v, "message");
          if field.Throws? {
            thrown := true;
          } else {
            message := field.v;
          }
        }
      }
    }
    if thrown {
      message := Str(body);
    }
    var err: Failure;
    if status == 400 {
      var reparsed := rt.parse(body);
      if reparsed.Some? && !Nullish(reparsed.value) {
        message := Member(reparsed.value, "ErrorMessage");
      }
      err := FtError(message, None);
    } else {
      var detail := ToString(message, rt.showNumber);
      if detail.None? {
        return Escaped(TypeError);
      }
      err := PlainError(Apology(detail.value), None);
    }
    err := err.(code := Some(status));
    return Rejected(err);
  }

  /** The extraction chain of FirstErrorMessage, restated as the guards
      under which none of its reads throws. */
  lemma FirstErrorMessageSpec(body: string, rt: Runtime)
    ensures FirstErrorMessage(body, rt) ==
      var parsed := rt.parse(body);
      if parsed.Some? && !Nullish(parsed.value) then
        var p := parsed.value;
        var list := if Truthy(Member(p, "errors")) then Member(p, "errors") else Member(p, "Errors");
        if !Nullish(list) && !Nullish(Member(list, "0"))
        then Member(Member(list, "0"), "message")
        else Str(body)
      else Str(body)
  {
    NatKeyShape(0);
  }

  /** An empty `errors` array makes `[0].message` throw: the raw body is used. */
  lemma EmptyErrorsGiveBody(body: string, rt: Runtime, fields: map<string, Json>)
    requires rt.parse(body) == Some(Obj(fields))
    requires "errors" in fields && fields["errors"] == Arr([])
    ensures FirstErrorMessage(body, rt) == Str(body)
  {
    FirstErrorMessageSpec(body, rt);
    IndexKeyIsNatKeyInverse("0", 0);
  }

  /** A first error without `message` yields undefined, without throwing. */
  lemma MissingMessageIsUndefined(body: string, rt: Runtime, fields: map<string, Json>, first: map<string, Json>, rest: seq<Json>)
    requires rt.parse(body) == Some(Obj(fields))
    requires "errors" in fields && fields["errors"] == Arr([Obj(first)] + rest)
    requires "message" !in first
    ensures FirstErrorMessage(body, rt) == Undefined
  {
    FirstErrorMessageSpec(body, rt);
    ArrayElement([Obj(first)] + rest, 0);
  }

  /** A falsy (or absent) `errors` defers to `Errors`. */
  lemma FalsyErrorsUseCapitalised(body: string, rt: Runtime, fields: map<string, Json>, first: Json, rest: seq<Json>)
    requires rt.parse(body) == Some(Obj(fields))
    requires "errors" !in fields || !Truthy(fields["errors"])
    requires "Errors" in fields && fields["Errors"] == Arr([first] + rest)
    requires !Nullish(first)
    ensures FirstErrorMessage(body, rt) == Member(first, "message")
  {
    FirstErrorMessageSpec(body, rt);
    ArrayElement([first] + rest, 0);
  }

  /** For status 400 the message is the body's `ErrorMessage` whenever the
      body parses to a value other than null, overriding the errors array
      even when the field is absent; otherwise it is the raw body. */
  lemma BadRequestMessageRule(body: string, rt: Runtime)
    ensures Normalize(400, body, rt).value.message ==
      var parsed := rt.parse(body);
      if parsed.Some? && !Nullish(parsed.value) then Member(parsed.value, "ErrorMessage") else Str(body)
  {
    FirstErrorMessageSpec(body, rt);
  }

  /** The example of a server error carrying an errors array. */
  lemma ServerErrorExample(body: string, rt: Runtime)
    requires rt.parse(body) == Some(Obj(map["errors" := Arr([Obj(map["message" := Str("oops")])])]))
    ensures Settle(Replied(500, body), rt)
         == Rejected(PlainError(ApologyPrefix + "oops" + ApologySuffix, Some(500)))
  {
    FirstErrorMessageSpec(body, rt);
    IndexKeyIsNatKeyInverse("0", 0);
  }

  /** A message whose conversion throws (an object with its own "toString"
      field) breaks the generic error: the TypeError escapes the callback
      and the promise is left unsettled. */
  lemma UnconvertibleMessageEscapes(body: string, rt: Runtime)
    requires rt.parse(body) == Some(Obj(map["errors" := Arr([Obj(map["message" := Obj(map["toString" := Num(0.0)])])])]))
    ensures Settle(Replied(500, body), rt) == Escaped(TypeError)
  {
    FirstErrorMessageSpec(body, rt);
    IndexKeyIsNatKeyInverse("0", 0);
  }

  /** A body that is not JSON (an HTML redirect page, say) is reported as is. */
  lemma UnparsableBodyIsReported(status: int, body: string, rt: Runtime)
    requires !Success(status) && status != 400
    requires rt.parse(body).None?
    ensures Settle(Replied(status, body), rt) == Rejected(PlainError(Apology(body), Some(status)))
  {
  }

  // ---------------------------------------------------------------------
  // Resource calls
  // ---------------------------------------------------------------------

  /** The headers of every authenticated resource call; converting the token
      into the Authorization value may throw. */
  function AuthHeaders(token: Json, rt: Runtime): (h: Option<map<string, string>>)
    ensures h.None? <==> ConversionThrows(token)
    ensures h.Some? ==>
      && h.value.Keys == {"Authorization", "Content-Type"}
      && h.value["Content-Type"] == "application/json"
      && |h.value["Authorization"]| >= 7
      && h.value["Authorization"][..7] == "Bearer "
      && Some(h.value["Authorization"][7..]) == ToString(token, rt.showNumber)
  {
    match ToString(token, rt.showNumber)
    case None => None
    case Some(t) =>
      Some(map["Authorization" := "Bearer " + t, "Content-Type" := "application/json"])
  }

  /** The talent-network collection under the "com" host of the environment. */
  function TalentNetworkUrl(cfg: Config): (url: string)
    ensures GetUrl("com", cfg.Env()) <= url
    ensures url[|GetUrl("com", cfg.Env())|..] == "/consumer/talentnetwork"
  {
    GetUrl("com", cfg.Env()) + "/consumer/talentnetwork"
  }

  /** The URL of tank configuration `tnDid`; converting the id may throw. */
  function TankConfigUrl(cfg: Config, tnDid: Json, rt: Runtime): (url: Option<string>)
    ensures url.None? <==> ConversionThrows(tnDid)
    ensures url.Some? ==>
      var base := TalentNetworkUrl(cfg);
      && base <= url.value
      && url.value[|base|..] == "/tankconfig/" + ToString(tnDid, rt.showNumber).value
  {
    match ToString(tnDid, rt.showNumber)
    case None => None
    case Some(id) => Some(TalentNetworkUrl(cfg) + "/tankconfig/" + id)
  }

  /** GET the tank configuration `tnDid`. Building the URL or the headers
      throws when the id or the token cannot be converted to a string. */
  function QueryTankConfig(cfg: Config, token: Json, tnDid: Json, rt: Runtime): (o: Outcome<Options>)
    ensures o.Rejected? <==> ConversionThrows(tnDid) || ConversionThrows(token)
    ensures !o.Escaped?
    ensures o.Rejected? ==> o.error == TypeError
    ensures o.Resolved? ==>
      && o.value.Call? && o.value.verb == GET && o.value.body.None?
      && GetUrl("com", cfg.Env()) <= o.value.uri
      && AuthHeaders(token, rt) == Some(o.value.headers)
  {
    match TankConfigUrl(cfg, tnDid, rt)
    case None => Rejected(TypeError)
    case Some(url) =>
      match AuthHeaders(token, rt)
      case None => Rejected(TypeError)
      case Some(headers) => Resolved(Call(GET, url, headers, None))
  }

  /** PUT the tank configuration `tnDid`, with the data as the body untouched. */
  function UpdateTankConfig(cfg: Config, token: Json, tnDid: Json, data: Json, rt: Runtime): (o: Outcome<Options>)
    ensures o.Rejected? <==> ConversionThrows(tnDid) || ConversionThrows(token)
    ensures !o.Escaped?
    ensures o.Rejected? ==> o.error == TypeError
    ensures o.Resolved? ==>
      && o.value.Call? && o.value.verb == PUT && o.value.body == Some(data)
      && GetUrl("com", cfg.Env()) <= o.value.uri
      && AuthHeaders(token, rt) == Some(o.value.headers)
  {
    match TankConfigUrl(cfg, tnDid, rt)
    case None => Rejected(TypeError)
    case Some(url) =>
      match AuthHeaders(token, rt)
      case None => Rejected(TypeError)
      case Some(headers) => Resolved(Call(PUT, url, headers, Some(data)))
  }

  /** POST a new tank configuration, with the data serialised as the body. */
  function CreateTankConfig(cfg: Config, token: Json, data: Json, rt: Runtime): (o: Outcome<Options>)
    ensures o.Rejected? <==> ConversionThrows(token)
    ensures !o.Escaped?
    ensures o.Rejected? ==> o.error == TypeError
    ensures o.Resolved? ==>
      && o.value.Call? && o.value.verb == POST && o.value.body == Some(rt.stringify(data))
      && GetUrl("com", cfg.Env()) <= o.value.uri
      && AuthHeaders(token, rt) == Some(o.value.headers)
  {
    match AuthHeaders(token, rt)
    case None => Rejected(TypeError)
    case Some(headers) => Resolved(Call(POST, TalentNetworkUrl(cfg), headers, Some(rt.stringify(data))))
  }

  /** The three descriptors agree: query and update address the same
      resource, which lies under the collection that create posts to, on
      the "com" host of the environment, and differ only in method and body. */
  lemma ResourceDescriptorsAgree(cfg: Config, token: Json, tnDid: Json, data: Json, rt: Runtime)
    ensures
      var q, u, c := QueryTankConfig(cfg, token, tnDid, rt),
                     UpdateTankConfig(cfg, token, tnDid, data, rt),
                     CreateTankConfig(cfg, token, data, rt);
      && (q.Resolved? <==> u.Resolved?)
      && (q.Resolved? ==> u.value == q.value.(verb := PUT, body := Some(data)))
      && (c.Resolved? ==> c.value.uri == GetUrl("com", cfg.Env()) + "/consumer/talentnetwork")
      && (q.Resolved? ==>
            && c.Resolved?
            && q.value.uri == c.value.uri + "/tankconfig/" + ToString(tnDid, rt.showNumber).value
            && c.value.uri < q.value.uri)
  {
  }

  /** The dictionary a caller's `qs` refers to; queryTns writes into it. */
  class Params {
    var entries: map<string, Json>

    constructor (entries: map<string, Json>)
      ensures this.entries == entries
    {
      this.entries := entries;
    }
  }

  /** The search object a caller passes to queryTns: a keyword and a
      reference to a query-string dictionary (null stands for null or
      undefined). */
  class SearchObj {
    var kw: Json
    var qs: Params?

    constructor (kw: Json, qs: Params?)
      ensures this.kw == kw && this.qs == qs
    {
      this.kw := kw;
      this.qs := qs;
    }
  }

  const DeveloperKey := "DeveloperKey"

  /** DEV_KEY as a JavaScript value: the configured string, or undefined
      when the variable is unset. */
  function DevKeyValue(cfg: Config): (v: Json)
    ensures cfg.devKey.Some? ==> v == Str(cfg.devKey.value)
    ensures cfg.devKey.None? ==> v == Undefined
  {
    match cfg.devKey
    case Some(k) => Str(k)
    case None => Undefined
  }

  /** The search URL: the "com" host of the environment, then
      "/talentnetworks/", the keyword and "/json". Converting the keyword
      may throw. */
  function TnsUrl(cfg: Config, kw: Json, rt: Runtime): (url: Option<string>)
    ensures url.None? <==> ConversionThrows(kw)
    ensures url.Some? ==>
      var base := GetUrl("com", cfg.Env());
      && base <= url.value
      && url.value[|base|..] == "/talentnetworks/" + ToString(kw, rt.showNumber).value + "/json"
  {
    match ToString(kw, rt.showNumber)
    case None => None
    case Some(k) =>
      var base := GetUrl("com", cfg.Env());
      var url := base + "/talentnetworks/" + k + "/json";
      assert url[|base|..] == "/talentnetworks/" + k + "/json";
      Some(url)
  }

  /** How queryTns settles: a 2xx body as is, any other status an FtError
      with the serialised body and the status as its code. */
  function TnsOutcome(reply: Reply<Json>, rt: Runtime): (o: Outcome<Json>)
    ensures reply.Failed? ==> o == Rejected(Transport(reply.cause))
    ensures reply.Replied? ==> (o.Resolved? <==> Success(reply.status))
    ensures !o.Escaped?
    ensures o.Resolved? ==> o.value == reply.body
    ensures reply.Replied? && o.Rejected? ==> o.error == FtError(rt.stringify(reply.body), Some(reply.status))
  {
    match reply
    case Failed(cause) => Rejected(Transport(cause))
    case Replied(status, body) =>
      if Success(status) then Resolved(body) else Rejected(FtError(rt.stringify(body), Some(status)))
  }

  /** queryTns: builds the search URL from the keyword, stores the developer
      key into the caller's `qs` dictionary (overwriting any value there and
      keeping every other key), then searches with that dictionary as the
      query string. A missing search object or `qs`, or a keyword that
      cannot be converted, makes a read, the conversion or the write throw
      before any request, and the promise rejects. */
  method QueryTns(search: SearchObj?, cfg: Config, rt: Runtime, request: Options -> Reply<Json>) returns (o: Outcome<Json>)
    modifies if search != null && search.qs != null then {search.qs} else {}
    ensures search == null || search.qs == null ==> o == Rejected(TypeError)
    ensures search != null && ConversionThrows(search.kw) ==> o == Rejected(TypeError)
    ensures search != null && search.qs != null && ConversionThrows(search.kw) ==>
      search.qs.entries == old(search.qs.entries)
    ensures search != null && search.qs != null && !ConversionThrows(search.kw) ==>
      && DeveloperKey in search.qs.entries
      && search.qs.entries[DeveloperKey] == DevKeyValue(cfg)
      && (forall k :: k != DeveloperKey ==>
            (k in search.qs.entries <==> k in old(search.qs.entries))
            && (k in old(search.qs.entries) ==> search.qs.entries[k] == old(search.qs.entries)[k]))
      && o == TnsOutcome(request(JsonGet(TnsUrl(cfg, search.kw, rt).value, search.qs.entries)), rt)
  {
    if search == null {
      return Rejected(TypeError);
    }
    var url := TnsUrl(cfg, search.kw, rt);
    if url.None? {
      return Rejected(TypeError);
    }
    if search.qs == null {
      return Rejected(TypeError);
    }
    search.qs.entries := search.qs.entries[DeveloperKey := DevKeyValue(cfg)];
    var options := JsonGet(url.value, search.qs.entries);
    var reply := request(options);
    if reply.Failed? {
      return Rejected(Transport(reply.cause));
    }
    if 200 <= reply.status && reply.status <= 299 {
      return Resolved(reply.body);
    }
    return Rejected(FtError(rt.stringify(reply.body), Some(reply.status)));
  }
}
