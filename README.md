# Request shaping of the Dedalus MCP example server, in Dafny

This project models the deterministic core of an MCP server that exposes
GitHub, Supabase (PostgREST) and Open-Meteo tools, together with the
credential-handle smoke test that exercises it. Every tool hands an HTTP
request to a dispatcher and shapes the dispatcher's response into a result.
The dispatcher resolves credentials and performs the call. It is outside the
model: a request is an output value and a response (success flag, parsed
JSON body, optional error message) is an input value.

Modules, one per file:

- `Wrappers`: `Option` and `Result`. A Python exception becomes `Err`.
- `Strings`: Python's `split`, `join`, `rstrip`, `str(int)` and substring test.
- `Json`: JSON values, Python truthiness and `dict.get`. Dicts are maps.
- `Dispatch`: the request and response values at the dispatcher boundary.
- `Base64Url`: base64url encoding with the alphabet of section 5 of RFC 4648,
  and its decoder.
- `SmokeClient`: the smoke test's helpers: required environment variables,
  the unpadded credential encoding, the JWT payload decoding (JWS Compact
  Serialization, section 7.1 of RFC 7515) and the pass/fail claim check.
- `Weather`: the query serialiser `_build_query`, `_weather_request`, the
  default variable lists and the geocoding search.
- `Db`: `_enc` (percent-encoding per section 2.1 of RFC 3986 with the
  PostgREST operators kept), `_hdrs`, `_to_list`, the request of every
  database tool, the `Prefer` strings, the `count` rules and the
  `db_get_by_id` selection.
- `GitHub`: `_request`'s result, the field projections with their
  defaults, the pull-request filter of the issue list, and the conditional
  construction of paths and bodies.

Where the source changes state step by step, the model is imperative:
- `_build_query`'s loop and `db_select`'s `+=` chain are methods proved
  against specification functions (`Query`, `SelectQuery`).
- `_hdrs`'s conditional insert is a method whose contract states the
  resulting header map outright. So do the `+=` paths and conditional bodies
  of the GitHub tools, and the in-place `result.data` overwrites of
  `gh_whoami`, `gh_list_repos` and `gh_get_repo`.

## Model

| member | source | states |
|---|---|---|
| SmokeClient.Env | src/_client_copy.py:26-30 | never returns an empty value; succeeds iff the variable is present and non-empty, or absent with a non-empty default; an empty present variable raises whatever the default; the error names the variable |
| SmokeClient.EncodeCredential | src/_client_copy.py:33-34 | the stripped encoding uses only `A-Z a-z 0-9 - _`, holds no `=`, and has length 4·(n div 3) plus 0, 2 or 3 for n mod 3 = 0, 1, 2 |
| SmokeClient.CredentialLength | src/_client_copy.py:53-54 | the 700-byte blob encodes to 934 characters, at least the 500 the admin API demands |
| SmokeClient.PaddingFor | src/_client_copy.py:42 | appends between 0 and 3 `=`, so the padded length is a multiple of 4 |
| SmokeClient.DecodeJwtPayload | src/_client_copy.py:37-43 | fails with "Not a JWT" exactly when the token has fewer than two dot-separated segments |
| SmokeClient.SecondSegmentOnly | src/_client_copy.py:38-41 | a third or later segment never changes the decoded payload |
| SmokeClient.SegmentRoundTrip | src/_client_copy.py:34-43 | restoring the padding of a stripped encoding and decoding it returns the original bytes |
| SmokeClient.JwtPayloadRoundTrip | src/_client_copy.py:37-43 | a token whose middle segment encodes some bytes decodes to those bytes, whatever the header and signature |
| Dispatch.ErrorMessage | src/gh.py:160 | the dispatcher's error message when the response carries one, the tool's own fallback text otherwise |
| SmokeClient.CheckClaims | src/_client_copy.py:90-104 | 2 iff `aud` differs from the resource; otherwise 3 iff `ddls:connections` is not a dict mapping the name to the handle; otherwise 0; a non-dict claims value raises |
| SmokeClient.AudienceCheckedFirst | src/_client_copy.py:98-100 | a wrong audience gives 2 whatever `ddls:connections` holds |
| SmokeClient.SmokeOutcome | src/_client_copy.py:90-104 | a token without a dot fails before any parsing or claim check |
| SmokeClient.IssuedTokenPasses | src/_client_copy.py:90-104 | end to end, a token carrying the claims issued for this resource and handle gives 0, and asking for another connection name gives 3 |
| Base64Url.EncodePadded | src/_client_copy.py:34 | the padded encoding has length 4·⌈n/3⌉ |
| Base64Url.EncodeBody | src/_client_copy.py:34 | the padding-free encoding is alphabet-only with the length above |
| Base64Url.PaddedIsBodyThenPad | src/_client_copy.py:34 | the padded encoding is the padding-free encoding followed by (3 − n mod 3) mod 3 `=` |
| Base64Url.DecodeEncode | src/_client_copy.py:43 | decoding the padded encoding of any byte string gives that byte string |
| Base64Url.Decode | src/_client_copy.py:43 | a decodable input has a length that is a multiple of 4, holds only alphabet characters apart from `=` in its last two positions, and gives between 3·(len/4) − 2 and 3·(len/4) bytes; every all-alphabet input of such a length decodes, to exactly 3·(len/4) bytes |
| Strings.IntToString | src/weather.py:114 | `str(int)`: only digits and no leading zero (`0` itself apart), read back as a decimal numeral it is the integer; a negative integer gets a leading `-` before the digits of its absolute value |
| Weather.QueryParts | src/weather.py:105-114 | no more parts than entries, and no part is empty |
| Weather.BuildQuery | src/weather.py:103-115 | the loop that skips `None`, renders and joins computes `Query(params)` |
| Weather.PartPerPresentEntry | src/weather.py:105-114 | exactly one part per non-`None` entry |
| Weather.QueryPartsAppend | src/weather.py:106-114 | the parts keep the dict's insertion order |
| Weather.QueryEmptyIff | src/weather.py:105-115 | the query is `""` exactly when every value is `None` (including the empty dict) |
| Weather.QueryAppend | src/weather.py:115 | the query of two dicts in sequence is their queries joined by one `&` |
| Weather.NoneEntryIgnored | src/weather.py:107-108 | a `None` entry contributes nothing, wherever it stands |
| Weather.SingleEntry | src/weather.py:109-114 | one entry renders as `k=v` |
| Weather.ListValueSplits | src/weather.py:109-110 | a list value is comma-joined and splits back into its items |
| Weather.QuerySplits | src/weather.py:115 | splitting the query on `&` recovers the parts when nothing contains `&` (values are not escaped) |
| Weather.PresentEntryInQuery | src/weather.py:105-114 | every non-`None` entry has its `k=v` part in the query |
| Weather.QueryPartsNoNone | src/weather.py:105-114 | without `None` values, part i renders entry i |
| Weather.Part | src/weather.py:109-114 | a part starts with the key and `=`, and the rest is the rendered value, unescaped |
| Weather.Render | src/weather.py:109-114 | a list renders as its items joined by `,`; a boolean renders as `true` exactly when it is true and `false` exactly when it is false; an integer as `str(int)`; text as it is |
| Weather.RequestPath | src/weather.py:121-122 | `?query` is added iff some value is not `None`, otherwise the path is unchanged |
| Weather.WeatherCall | src/weather.py:118-124 | a GET on the named connection with that path, no headers, no body |
| Weather.WeatherResultOf | src/weather.py:126-130 | success with the body and no error, or failure with the dispatcher's message or "Request failed" |
| Weather.OrDefault | src/weather.py:252 | the defaults replace both `None` and an empty list |
| Weather.AirQuality | src/weather.py:249-257 | the request's query carries `hourly=` with the given or default pollutants |
| Weather.MarineWeather | src/weather.py:283-291 | the query carries `hourly=` with the given or default marine variables |
| Weather.FloodForecast | src/weather.py:315-322 | the query carries `daily=` with the given variables or `river_discharge` |
| Weather.SeasonalForecast | src/weather.py:350-359 | the query carries `daily=` with the given variables or the temperature and precipitation defaults; a given `sixhourly` list appears as its comma-joined part, and an absent one leaves the query as if the entry were not there |
| Weather.ClimateProjection | src/weather.py:387-396 | the query carries `daily=` with the given or default climate variables |
| Weather.SixhourlyOptional | src/weather.py:350-359 | an optional list entry gives its `k=v1,v2` part when given, and when `None` the query equals the query without that entry |
| Weather.Geocoding | src/weather.py:608-621 | a GET on the geocoding connection with no headers and no body; the parts are `name`, `count`, `language`, `format=json`, and `countryCode` as a fifth part only when given |
| Weather.GeocodingParts | src/weather.py:609-616 | the fixed four parts come first, in order, and `countryCode` is a fifth part exactly when a non-empty code is given |
| Weather.GeocodingResultOf | src/weather.py:622-628 | on success `results` is the body's `results` when the body is a dict holding it and `[]` otherwise; failures keep the message |
| Db.Enc | src/db.py:46-48 | every output character is safe (alphanumeric or `= & , . * - _ ~ :`) or `%` |
| Db.EncChar | src/db.py:46-48 | a single character is kept when safe, and otherwise becomes the `%XX` of each of its UTF-8 bytes |
| Db.EncAppend | src/db.py:46-48 | the encoding of a concatenation is the concatenation of the encodings, so each character is encoded on its own and safe characters stay literal wherever they stand |
| Db.EncMixed | src/db.py:46-48 | `a/` becomes `a%2F` and `eq.a b` becomes `eq.a%20b`: the operator characters are kept next to escaped ones |
| Db.EncSafeUnchanged | src/db.py:46-48 | a string of safe characters is returned unchanged |
| Db.UnsafeAsciiEncoded | src/db.py:46-48 | any other ASCII character becomes `%XX` in upper-case hexadecimal, so `/` is `%2F` and `%` is `%25` |
| Db.EncRoundTrip | src/db.py:46-48 | percent-decoding the output gives back the UTF-8 bytes of the input |
| Db.AsciiBytes | src/db.py:46-48 | for ASCII input those bytes are the character codes themselves |
| Db.Hdrs | src/db.py:51-56 | `Content-Type: application/json` always, `Prefer` iff a non-empty prefer string is passed, and no other key |
| Db.ToList | src/db.py:59-63 | a list is returned unchanged, a truthy non-list is wrapped, a falsy body gives `[]` |
| Db.ToListIdempotent | src/db.py:59-63 | normalising twice equals normalising once |
| Db.BuildSelectQuery | src/db.py:90-98 | the `+=` chain builds `select=`, filters, `order=`, `limit=`, `offset=`, in that order, each only when truthy |
| Db.SelectQueryStartsWithColumns | src/db.py:90 | the query always begins with `select=<columns>` |
| Db.ZeroPagingOmitted | src/db.py:95-98 | limit 0 or offset 0 gives the same query as no limit or offset |
| Db.BareSelect | src/db.py:90-98 | without options the query is `select=<columns>` alone |
| Db.SelectRequest | src/db.py:100 | GET `/<table>?<encoded query>` with `Prefer: count=exact` |
| Db.Prefer | src/db.py:123 | `return=representation` iff data is requested, `return=minimal` iff not |
| Db.UpsertPrefer | src/db.py:197 | `return=representation,resolution=merge-duplicates` when data is to be returned, `return=minimal,resolution=merge-duplicates` otherwise |
| Db.InsertRequest | src/db.py:122-124 | POST `/<table>` with the rows as body and the `Prefer` choice |
| Db.UpdateRequest | src/db.py:146-148 | PATCH `/<table>?<encoded filters>` with the updates as body |
| Db.DeleteRequest | src/db.py:170-172 | DELETE `/<table>?<encoded filters>` without a body |
| Db.UpsertRequest | src/db.py:196-200 | POST `/<table>?on_conflict=<column>`, the column not encoded |
| Db.GetByIdRequest | src/db.py:222-224 | GET with `select=<columns>&<column>=eq.<id>` encoded |
| Db.RpcRequest | src/db.py:249-250 | POST `/rpc/<name>`, no `Prefer`, body `params or {}` |
| Db.Failed | src/db.py:106 | a failure carries no rows, no count, and the dispatcher's message or the tool's own |
| Db.ResultOf | src/db.py:103-106 | on success the normalised body, with `count` the number of returned rows, the number of rows sent, or none, as the tool's rule says; on failure no rows, no count and the dispatcher's message or the tool's own |
| Db.ToolResults | src/db.py:103-255 | select and update count the rows returned, insert and upsert the rows sent, delete and rpc nothing; each tool falls back to its own failure message |
| Db.MinimalInsertStillCounts | src/db.py:103-129 | with an empty body an insert still counts every row sent while a select counts 0 |
| Db.GetByIdResult | src/db.py:227-234 | a non-empty list gives its first row, a dict gives itself, anything else "Not found"; failures "Query failed" |
| Db.GetByIdAgreesWithToList | src/db.py:227-233 | a found row is the first row `_to_list` gives, except that an empty dict is found here but dropped there |
| GitHub.ShapeResult | src/gh.py:157-161 | success with the body, or failure with the dispatcher's message or the fallback (`"Request failed"` in `_request`, `"GraphQL request failed"` for discussions) |
| GitHub.DiscussionsLikeRequest | src/gh.py:576-583 | the two results coincide iff the call succeeded or the dispatcher gave a message |
| GitHub.Lookup | src/gh.py:296 | `d.get(k, default)`, and for nested fields `{}` as the outer default, raising on a present non-dict |
| GitHub.ProjectFields | src/gh.py:191-196 | a projected record has exactly the declared field names, and fails iff some lookup fails |
| GitHub.ProjectFieldValue | src/gh.py:191-196 | each field of a projected record holds its own lookup |
| GitHub.ProjectItem | src/gh.py:190-198 | only a dict can be projected; anything else raises |
| GitHub.ProjectAll | src/gh.py:190-198 | one record per element, in order, or failure iff some element fails |
| GitHub.Iterate | src/gh.py:358-366 | a list yields its items; an empty dict or string yields nothing; other values raise |
| GitHub.RepoDefaults | src/gh.py:191-196 | `stars` defaults to 0 and `default_branch` to "main" only when the key is absent |
| GitHub.IssueUser | src/gh.py:296 | a missing `user` gives "", a non-dict `user` raises, otherwise its `login` |
| GitHub.Whoami | src/gh.py:168-177 | on success `data` becomes `{login, name, email}`; failures pass through; a non-dict body raises |
| GitHub.ListRepos | src/gh.py:184-201 | `data` is `[]`, with the error kept, whenever the call failed or the body is not a list; otherwise one summary per repo |
| GitHub.GetRepo | src/gh.py:205-215 | on success `data` becomes the repository summary |
| GitHub.Contains | src/gh.py:299 | Python's `in`: dict key, list element or substring; other types raise |
| GitHub.IssueStep | src/gh.py:291-299 | an entry with `pull_request` yields nothing, any other yields its summary |
| GitHub.Issues | src/gh.py:291-300 | fails exactly when the step of some entry fails; never more issues than entries, each an issue summary |
| GitHub.IssuesSingle | src/gh.py:291-300 | a one-entry list yields exactly that entry's step |
| GitHub.IssuesAppend | src/gh.py:291-300 | the issues of a concatenation are those of each part, in order: the filter keeps order |
| GitHub.PullsOnlyGiveNothing | src/gh.py:299 | a list made only of pull requests yields no issues |
| GitHub.ListIssues | src/gh.py:286-301 | `[]` on failure or a non-list body, otherwise the filtered issues |
| GitHub.ListBody | src/gh.py:326-337 | list-bodied tools project every element of a list body, `[]` otherwise |
| GitHub.DictBody | src/gh.py:357-368 | dict-bodied tools read their key only from a dict body: `[]` when the body is not a dict or the key is absent, the projection of every element when the key holds a list, and for any other value `[]` or the error that iterating it raises |
| GitHub.ListPrs | src/gh.py:316-337 | on a successful list body, exactly the `PullFields` projection of the elements, record k from element k; `[]` on failure or a non-list body |
| GitHub.ListDeployments | src/gh.py:480-492 | on a successful list body, exactly the `DeploymentFields` projection of the elements, record k from element k; `[]` otherwise |
| GitHub.ListCommitStatuses | src/gh.py:530-543 | on a successful list body, exactly the `StatusFields` projection of the elements, record k from element k; `[]` otherwise |
| GitHub.ListWorkflows | src/gh.py:353-368 | reads `workflows` from a successful dict body: its list projected with `WorkflowFields`, record k from element k; `[]` when the body is not a dict or `workflows` is absent; any other value gives `[]` or the error that iterating it raises |
| GitHub.ListWorkflowRuns | src/gh.py:383-396 | reads `workflow_runs` from a successful dict body: its list projected with `RunFields`, record k from element k; `[]` when the body is not a dict or `workflow_runs` is absent; any other value gives `[]` or the error that iterating it raises |
| GitHub.ListSecrets | src/gh.py:449-463 | reads `secrets` from a successful dict body: its list projected with `SecretFields`, record k from element k; `[]` when the body is not a dict or `secrets` is absent; any other value gives `[]` or the error that iterating it raises |
| GitHub.ListEnvironments | src/gh.py:500-510 | reads `environments` from a successful dict body: its list projected with `EnvironmentFields`, record k from element k; `[]` when the body is not a dict or `environments` is absent; any other value gives `[]` or the error that iterating it raises |
| GitHub.GetFilePath | src/gh.py:228-230 | `?ref=<ref>` is appended only when `ref` is truthy |
| GitHub.WorkflowRunsPath | src/gh.py:378-381 | the workflow-specific path when `workflow_id` is truthy, the all-runs path otherwise |
| GitHub.WorkflowRunsPathIff | src/gh.py:378-381 | the all-runs path is used iff no truthy id is given; id 0 selects it |
| GitHub.DeploymentsPath | src/gh.py:476-478 | `&environment=<env>` is appended only when an environment is given |
| GitHub.PutFileBody | src/gh.py:245-249 | `message` and `content` always, `branch` and `sha` iff truthy, no other key |
| GitHub.DeleteFileBody | src/gh.py:266-268 | `message` and `sha` always, `branch` iff truthy, no other key |
| GitHub.StrMap | src/gh.py:405-409 | a `dict[str, str]` as a JSON object with the same keys and values |
| GitHub.DispatchWorkflowBody | src/gh.py:407-409 | `ref` always, `inputs` iff a non-empty dict is given, no other key |

## Left out

- Default argument values of the tools (`columns="*"`, `return_data=True` for insert, update and upsert and `False` for delete, `on_conflict="id"`, `per_page=10`, geocoding `count=10` and `language="en"`, and the like). In the model every argument is a parameter, and callers pass these values explicitly.
- Network I/O: the dispatcher, `httpx` and the SDK calls. Responses are input values and requests are output values.
- The server side of the credential-handle protocol: the connection registry, the token exchange, JWT signing and verification. It runs in external services that the smoke test only calls.
- `os.urandom`: the credential encoder takes the bytes as a parameter.
- `json.loads`: the JWT payload decoder stops at the raw bytes, and `SmokeOutcome` takes the parser as a parameter.
- `load_dotenv`, the smoke test's other configuration lines and its printing.
- Pydantic validation of the result records. A wrong field type is not rejected in the model.
- The exception messages of Python's `AttributeError` and `TypeError`. They are modelled as the bare class names.
- The order of keys in a JSON object, which is modelled as a map. The order of the weather query parameters is modelled.
- `str()` of floats. Coordinates are passed as already-rendered text.
- The weather tools without defaults or conditionals (the forecast, archive, elevation and ensemble tools and the seven regional models). They reuse `_build_query` and `_weather_request`, which are modelled.
- The GitHub and Weather tools that only forward a fixed f-string path to `_request` (`gh_get_issue`, `gh_get_pr`, the cancel and rerun calls, the actions variables, the combined status) and the GraphQL query text of `gh_list_discussions`.
- Base64Url.Decode: accepts less than Python's `urlsafe_b64decode`. It decodes only the URL-safe alphabet with padding allowed only at the end. Python, in its default non-validating mode, silently discards characters outside the alphabet. It also decodes `+` and `/` as the values 62 and 63, and stops at the first complete padding group. For example, `QQ+/` and `QQ==QQ==` decode in Python but give `None` in the model. The smoke test decodes only what the authorization server issues, which is the stripped URL-safe form the model covers (`SmokeClient.SegmentRoundTrip`).
- SmokeClient.CheckClaims: takes any JSON value as the claim in `ddls:connections`. The `handle` it is compared with is assumed to be a string. That value comes from the admin API's JSON reply (src/_client_copy.py:70), and a non-string handle there is not modelled.
- SmokeClient.DecodeJwtPayload: its decode error, `BadBase64` ("Incorrect padding"), stands for every error `urlsafe_b64decode` raises: each `binascii.Error`, such as "Invalid base64-encoded string", and the plain `ValueError` for a segment with non-ASCII characters. The model reports that a decode failed, not which message Python chose.
- GitHub.Whoami: `result.data` is overwritten on a freshly built, unaliased object. This is modelled as an update of a local value, not of a shared heap object. The same holds for GitHub.ListRepos and GitHub.GetRepo.
- `_enc` and `str(int)` are modelled for the characters and integer renderings the tools produce. `quote`'s handling of lone surrogates is not modelled.
