# Matrix API client: a verified model of its decision rules

`src/lib/matrix-api.js` is a client for the CareerBuilder "matrix" HTTP API.
It obtains an OAuth2 access token with a client-credentials grant whose
client is authenticated by a signed JWT assertion (section 2.2 of RFC 7523,
section 4.4 of RFC 6749, claims of section 4.1 of RFC 7519), calls the
tank-configuration endpoints with that bearer token, searches talent
networks with a developer key, and turns the error bodies the service
returns into one of two error classes carrying the HTTP status.

This project models the rules inside that file, in two modules:

- `Js` (`js.dfy`): the JavaScript semantics the rules depend on. A `Json`
  datatype holds what `JSON.parse` produces plus `undefined`; a property read
  is `Get`, which throws on `null` and `undefined` and otherwise yields
  `Member`; `x[0]` reads the key `NatKey(0)`, and arrays and strings answer
  canonical decimal keys (`IndexKey`, proved the inverse of `NatKey`);
  `Truthy` is the `||` test; `ToString` is the conversion of a template
  literal.
- `MatrixApi` (`matrix_api.dfy`): the base-URL resolver, the claims, the
  token request and the decision on its answer, the status classification
  and error-message extraction of `sendRequest` (as a specification function
  `Settle` and a step-by-step method `SendRequest` proved equal to it), the
  request descriptors of the resource calls, and `queryTns`, a method that
  writes the developer key into the caller's query-string object (a `Params`
  object reached through a `SearchObj`) before searching.

The foreign collaborators are parameters: `JSON.parse`, `JSON.stringify`,
number formatting and jwt-simple's `encode` are the fields of a `Runtime`
value; each HTTP exchange is a function from the options object to what the
HTTP library reports (`Reply` for `request`, `RpResult` for
request-promise); `Date.now()` is `now`; the process environment is a
`Config`.

Behaviours of the code that the model keeps:

- A body that parses to a value other than null, and has none of
  `errors`, `Errors` and `ErrorMessage`, gives different messages by status. For a status other than 400 the read
  `(undefined || undefined)[0]` throws, so the raw body is the message.
  For 400 the message is `undefined`.
- For 400, `ErrorMessage` replaces the errors-array message whenever the
  body parses to a value other than null, even when that field is absent.
- The token is accepted only when `access_token` is truthy, so an empty
  string is refused with `error_description`.
- A bad configuration rejects with the validation library's error, through
  the same rejection path as every other failure.
- request-promise itself rejects token responses whose status is not 2xx.
  So the `error_description` branch is reached only for a 2xx body without
  a truthy token, and those rejections reach the caller as `Transport`.
- Building the generic error for a status other than 400 can throw. This
  happens when the extracted message is an object with its own `toString`
  field, or an array holding one. The TypeError is thrown inside the HTTP
  callback, outside any try, so it escapes and the promise of `sendRequest`
  never settles (`Escaped`). The same conversion in the URL and header
  builders throws where the caller's promise catches it, so there it is a
  rejection.

## Model

| member | source | states |
|---|---|---|
| `Js.Get` | src/lib/matrix-api.js:98 | a property read throws exactly when the value read from is null or undefined |
| `Js.Member` | src/lib/matrix-api.js:98 | objects answer their own fields and missing keys read as undefined; array reads yield an element or undefined, string reads a one-character string or undefined; booleans and numbers read as undefined |
| `Js.Then` | src/lib/matrix-api.js:98 | a read chained on an expression that threw also throws |
| `Js.IndexKeyIsNatKeyInverse` | src/lib/matrix-api.js:98 | a property key denotes array index n exactly when it is the decimal key written for n, so `[0]` means key "0" |
| `Js.ArrayElement` | src/lib/matrix-api.js:98 | reading `[n]` of an array with n in range yields its element n |
| `Js.FirstElement` | src/lib/matrix-api.js:98 | `[0]` on a non-empty array reads its first element |
| `Js.Truthy` | src/lib/matrix-api.js:98 | the `\|\|` and `if` test: null and undefined are falsy, a string is truthy iff non-empty, arrays and objects are always truthy |
| `Js.ToString` | src/lib/matrix-api.js:110 | the template-literal conversion throws exactly when the value is an object with its own toString field or an array holding such an item; strings convert to themselves, undefined to "undefined", other objects to "[object Object]" |
| `Js.JoinItems` | src/lib/matrix-api.js:110 | joining array items throws exactly when some item that is neither null nor undefined throws on conversion |
| `MatrixApi.EnvName` | src/lib/matrix-api.js:9 | ENV is NODE_ENV when it is set and non-empty, and "development" when it is unset or empty; `Config.Env` is always this value |
| `MatrixApi.GetUrl` | src/lib/matrix-api.js:25-29 | "production" selects the api host and anything else the wwwtest host; "eu" selects the .eu domain and anything else .com |
| `MatrixApi.GetUrlRange` | src/lib/matrix-api.js:25-29 | the resolver's outputs are exactly the four hosts, each reached by some input |
| `MatrixApi.GetUrlDistinguishes` | src/lib/matrix-api.js:25-29 | two inputs give the same host iff they agree on region-is-eu and on env-is-production |
| `MatrixApi.GetTokenUrl` | src/lib/matrix-api.js:31-33 | the token URL splits into the base URL of the same inputs followed by "/oauth/token" |
| `MatrixApi.GetClaims` | src/lib/matrix-api.js:35-42 | issuer and subject are the client id, the audience is the production "com" token URL, and exp*1000 <= now+1800000 < exp*1000+1000, i.e. exp is now/1000 + 1800 |
| `MatrixApi.AudienceIsFixed` | src/lib/matrix-api.js:39 | the audience is the production token URL in every environment, so outside production it differs from the URL the request is posted to |
| `MatrixApi.CredentialsValid` | src/lib/matrix-api.js:14-17 | the configuration passes only when client id and secret are both present and non-empty; a missing or empty one fails |
| `MatrixApi.GetJwt` | src/lib/matrix-api.js:44-46 | the assertion is the claims signed with the secret under the fixed algorithm HS512 |
| `MatrixApi.TokenRequest` | src/lib/matrix-api.js:48-65 | never escapes; a request is built exactly when the credentials are valid: no request exists unless client id and secret are non-empty strings, which rejects with the validation error; otherwise a form post to the "com" token URL of the environment with exactly the five fields: the JWT-bearer assertion type, the HS512-signed claims, client_credentials, the id and the secret |
| `MatrixApi.TokenResponse` | src/lib/matrix-api.js:66-73 | never escapes; resolves iff the body has a truthy access_token and then to exactly it; any other body that is neither null nor undefined rejects with FtError(error_description), a null or undefined one with TypeError, and transport errors pass through unchanged |
| `MatrixApi.GetToken` | src/lib/matrix-api.js:48-75 | invalid credentials reject with the validation error; valid ones post the token request and decide on its answer |
| `MatrixApi.InvalidCredentialsNeverPost` | src/lib/matrix-api.js:50 | with invalid credentials the outcome does not depend on the transport at all: no request is made |
| `MatrixApi.EmptyTokenIsRefused` | src/lib/matrix-api.js:67-72 | an empty-string access_token rejects with the error_description |
| `MatrixApi.Apology` | src/lib/matrix-api.js:110 | the generic message begins with the fixed prefix and ends with the fixed suffix, and what lies between them is exactly the detail |
| `MatrixApi.ReportedDetail` | src/lib/matrix-api.js:110 | any detail it reads from a message rebuilds that exact message |
| `MatrixApi.ApologyRoundTrip` | src/lib/matrix-api.js:110 | the detail of a generic message is recoverable from it unchanged |
| `MatrixApi.ErrorList` | src/lib/matrix-api.js:98 | `p.errors || p.Errors` throws exactly when the parsed body is null or undefined |
| `MatrixApi.FirstErrorMessage` | src/lib/matrix-api.js:95-101 | a body that fails to parse yields itself as the message |
| `MatrixApi.FirstErrorMessageSpec` | src/lib/matrix-api.js:95-101 | the message is `(p.errors or p.Errors)[0].message` when the body parses to p and no read throws, and the raw body otherwise |
| `MatrixApi.EmptyErrorsGiveBody` | src/lib/matrix-api.js:96-101 | an empty errors array makes the read throw, so the raw body is the message |
| `MatrixApi.MissingMessageIsUndefined` | src/lib/matrix-api.js:98 | a first error without a message field yields undefined, without falling back to the body |
| `MatrixApi.FalsyErrorsUseCapitalised` | src/lib/matrix-api.js:98 | an absent or falsy errors defers to the message of the first element of Errors |
| `MatrixApi.BadRequestMessage` | src/lib/matrix-api.js:103-107 | a body that fails to parse keeps the earlier message |
| `MatrixApi.BadRequestMessageRule` | src/lib/matrix-api.js:103-108 | for 400 the message is the parsed body's ErrorMessage whenever it parses to a non-null value, even when absent, and the raw body otherwise |
| `MatrixApi.Normalize` | src/lib/matrix-api.js:95-114 | for a non-2xx status, building the error throws exactly when the status is not 400 and the extracted message cannot be converted; otherwise it is an FtError iff the status is 400, else a plain error, with the status as its code; a plain error's text reads back as the converted message |
| `MatrixApi.Settle` | src/lib/matrix-api.js:79-116 | transport errors pass through; a status in 200..299 resolves to the body unchanged; any other status rejects with code = status, FtError iff status is 400 and plain Error otherwise, except that it escapes as a TypeError exactly when the message of a non-400 status cannot be converted |
| `MatrixApi.SendRequest` | src/lib/matrix-api.js:77-120 | the step-by-step evaluation with its try/catch fallbacks settles exactly as Settle says |
| `MatrixApi.ServerErrorExample` | src/lib/matrix-api.js:109-115 | status 500 with errors [{message: "oops"}] rejects with the generic message around "oops" and code 500 |
| `MatrixApi.UnconvertibleMessageEscapes` | src/lib/matrix-api.js:110 | status 500 with errors [{message: {toString: 0}}] throws a TypeError out of the callback and never settles |
| `MatrixApi.UnparsableBodyIsReported` | src/lib/matrix-api.js:86-101 | a non-JSON body (an HTML page) is wrapped verbatim into the generic message |
| `MatrixApi.AuthHeaders` | src/lib/matrix-api.js:127-130 | throws exactly when the token cannot be converted; otherwise exactly two headers, Authorization being "Bearer " followed by the converted token and Content-Type application/json |
| `MatrixApi.TalentNetworkUrl` | src/lib/matrix-api.js:152 | the collection URL is the "com" base URL of the environment followed by "/consumer/talentnetwork" |
| `MatrixApi.TankConfigUrl` | src/lib/matrix-api.js:123 | throws exactly when the id cannot be converted; otherwise the collection URL followed by "/tankconfig/" and the converted id |
| `MatrixApi.QueryTankConfig` | src/lib/matrix-api.js:122-134 | rejects with TypeError exactly when the id or token cannot be converted; otherwise a GET without body under the "com" base URL of the environment, with the bearer headers |
| `MatrixApi.UpdateTankConfig` | src/lib/matrix-api.js:136-149 | rejects with TypeError exactly when the id or token cannot be converted; otherwise a PUT under the same base whose body is the data untouched, with the bearer headers |
| `MatrixApi.CreateTankConfig` | src/lib/matrix-api.js:151-164 | for JSON data: rejects with TypeError exactly when the token cannot be converted; otherwise a POST under the same base whose body is JSON.stringify of the data, with the bearer headers |
| `MatrixApi.ResourceDescriptorsAgree` | src/lib/matrix-api.js:122-164 | query and update are built under the same conditions, and update is query with method PUT and the data as body; create posts to base/consumer/talentnetwork; query's URL is that followed by /tankconfig/ and the id |
| `MatrixApi.DevKeyValue` | src/lib/matrix-api.js:12 | the value written as DeveloperKey is the configured key, or undefined when DEV_KEY is unset |
| `MatrixApi.TnsUrl` | src/lib/matrix-api.js:169 | throws exactly when the keyword cannot be converted; otherwise the URL is the "com" base URL of the environment followed by "/talentnetworks/", the converted keyword and "/json" |
| `MatrixApi.TnsOutcome` | src/lib/matrix-api.js:177-193 | transport errors pass through; 2xx resolves to the body; any other status rejects with FtError(JSON.stringify(body)) and code = status |
| `MatrixApi.QueryTns` | src/lib/matrix-api.js:167-195 | a missing search object or qs, or an unconvertible keyword, rejects with TypeError, sends nothing and leaves qs as it was; otherwise DeveloperKey is set in the caller's qs in place, every other key keeps its presence and value, and the search is sent with that qs |

## Left out

- HTTP transport and asynchrony: `request`, `request-promise` and the RSVP promises are left out. Each exchange is a function parameter from the options object to its result, and a promise is an `Outcome`. Transport errors are opaque strings passed through unchanged.
- Foreign libraries are uninterpreted parameters: HS512 signing (jwt-simple, HMAC-SHA-512 of section 3.2 of RFC 7518), `JSON.parse`, `JSON.stringify` and the engine's number-to-string conversion.
- The Joi schema is reduced to `CredentialsValid`: both values present and non-empty. Its error value is the single `ValidationError`.
- `FTError` is defined outside this file and is not part of this model. It is modelled as an error holding whatever value it was built from.
- `Date.now()` is the `now` parameter. `process.env` is a `Config` value holding the raw variables; `Config.Env` applies the fallback of line 9.
- MatrixApi.GetClaims: `parseInt` of a quotient printed in exponent notation (timestamps of 10^21 ms and beyond) is not modelled; the expiry is natural-number division.
- The exported operations `query`, `update` and `create` (lines 197-217) only chain `getToken` into a descriptor builder and `sendRequest`, so they are not modelled separately.
- Js.Member: the `length` property and inherited prototype members are not modelled. No key read by this file names one. Array indices are not capped at 2^32-2. String elements are characters, not UTF-16 code units.
- MatrixApi.CreateTankConfig: the values callers pass (`tnDid`, `data`, `searchObj.kw` and the values in `qs`) are JSON values plus undefined. `JSON.stringify(data)` throwing at line 160 is not modelled. That happens for cyclic or BigInt data and makes `create` reject. Values with a callable `toString` or `toJSON` (a Date, a class instance) are not represented either, so their conversions at lines 123, 137, 160 and 169 are not modelled.
- Objects are maps, so key order is lost. No rule here depends on it.
- Numbers are exact reals, not IEEE doubles, so -0 and 0 are one value and NaN does not occur. No rule here depends on it: `JSON.parse` and number formatting are parameters.
- An `Escaped` outcome models only the unsettled promise. What Node does next with the uncaught exception (by default, ending the process) is outside this model.
- MatrixApi.QueryTns: a `qs` that is a primitive or an array is not represented. Only an object or null/undefined is.
- The try/catch around `JSON.stringify` in `queryTns` (lines 184-186) is not modelled as a branch. `stringify` is total on JSON values, which are acyclic and hold no BigInt, so that catch cannot fire on them.
