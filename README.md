# SCIM identity-management plugin, modelled in Dafny

This project models the core of the identity-management plugin of openkcm. The plugin
answers three questions from a SCIM 2.0 server (RFC 7643, RFC 7644):

- which users belong to a group,
- which groups a user belongs to,
- which groups exist.

The model covers these parts of the repository:

- **The SCIM filter expressions and their text** (`filter.go`): module `Filter`.
- **The request builders** (`helpers.go`): module `Helpers`. They build either a GET query or a POST `.search` body.
- **The SCIM client** (`connect.go`): module `Scim`. It covers:
  - choosing the authentication when the client is made
  - the request headers, including the Basic credentials
  - paths and methods
  - error wrapping under one marker per operation
- **The status gate before JSON decoding** (`httpclient.go`): module `HttpClient`.
- **The plugin** (`plugin.go`): module `Plugin`. It covers configuration, the filter choice, the three queries and how their answers are projected.

Several modules are supporting code:

- `Errors` models Go's error chains: `errors.New` sentinels, `errs.Wrap`, `fmt.Errorf` with `%w`, `errors.Is` and the error text.
- `Http` models the few parts of `net/http` the client uses:
  - a `Request` whose header and raw query change in place
  - a `Client` whose ghost `sent` log records every request handed to the transport
- `Base64` models `base64.RawStdEncoding`, including a decoder and the round trip.
- `Text` provides string joining, character counting and `strconv.Itoa` with a reference parser.
- `Resources` holds the SCIM resource records.
- `Configuration` holds the configuration records.

Library calls whose inner workings are out of scope are passed in as function values:

- in `Scim.Runtime`:
  - JSON encoding and decoding
  - `http.NewRequestWithContext` refusing a URL
- in `Configuration.Loader`:
  - YAML parsing
  - commoncfg source references and the MTLS certificate loader
- in `Http.RoundTripper`: the transport.

Each client operation has two forms:

- a specification function, such as `Client.ListUsersCall`, that gives its result together with the requests it sent;
- a method that does the work step by step on the mutable request and the HTTP client, proved equal to that function.

Properties are then proved about the functions. These include:

- where each request goes and what it carries;
- the conditions under which nothing is sent;
- which sentinel each failure carries and how its text reads;
- the Basic credentials decoding back to `id:secret`;
- the filter texts of the repository's tests and the structure of filter text in general.

Two places in the code do not type-check as they stand. The model follows `connect.go` in both:

- **Listing method.** `plugin.go` passes `http.MethodPost` or `http.MethodGet` where `connect.go` takes a boolean `useHTTPPost`. The model reads POST as `true` and GET as `false`.
- **Client constructor.** `plugin.go` calls `scim.NewClient(cfg.Host, cfg.Auth, logger)`, but `connect.go` defines `NewClientFromAPI(cfg, logger)`. The model calls `Scim.NewClientFromAPI` with the whole configuration.

Some parts of the repository point at features that this revision of the code does not have. The model leaves them out because nothing implements them:

- `pkg/config/config.go:8` declares `GroupMembersAttribute` and `pkg/config/config.go:10` declares `AllowSearchUsersByGroup`. No code reads either one, so there is no membership attribute and no "search users by group" switch.
- `internal/plugin/test/plugin_test.go:26-29` calls a `GetGroup`. Neither `internal/plugin/scim/plugin.go` nor the test plugin defines one, so there is no group lookup by name.
- `pkg/clients/scim/definitions.go:24` decodes a user's e-mails. No operation of `plugin.go` returns them.

Likewise, an empty client id is rejected only when its loader fails. No separate emptiness check exists.

## Model

| member | source | states |
|---|---|---|
| Text.ItoaRoundTrip | pkg/clients/scim/helpers.go:47-49 | the decimal text of the count parses back to the same integer, negative or not |
| Base64.EncodeRaw | pkg/clients/scim/connect.go:63-64 | unpadded base64 is (4n+2)/3 symbols long, and every character is in the standard alphabet |
| Base64.EncodeRawRoundTrip | pkg/clients/scim/connect.go:63-64 | decoding the unpadded base64 of any byte string gives back exactly those bytes |
| Base64.NonCanonicalTail | pkg/clients/scim/connect.go:63-64 | the reference decoder refuses "AB", a two-character text whose last character has nonzero unused bits (the encoder writes the byte 0 as "AA") |
| Base64.EncodeRawCanonical | pkg/clients/scim/connect.go:63-64 | the encoder always ends canonically: after a final one or two bytes, the unused low bits of the last character are zero |
| Base64.NoPadding | pkg/clients/scim/connect.go:64 | the raw encoding never emits '=' |
| Filter.OperatorsClosed | pkg/clients/scim/filter.go:10-17 | exactly the six texts eq, eq_ci, ne, co, sw, ew are operator texts, and each belongs to one operator |
| Filter.ToString | pkg/clients/scim/filter.go:28-78 | a filter's text is empty exactly when the filter is the Null expression |
| Filter.SingleMemberGroup | pkg/clients/scim/filter.go:48-69 | a group with one member is still wrapped in parentheses |
| Filter.SingleMemberConnective | pkg/clients/scim/filter.go:48-69 | with one member, And and Or give the same text |
| Filter.GroupAppend | pkg/clients/scim/filter.go:48-69 | appending a member to a non-empty group puts the connective and that member's text just before the closing parenthesis |
| Filter.TwoMemberGroup | pkg/clients/scim/filter_test.go:76-123 | a two-member group reads "(a and b)" or "(a or b)", in member order |
| Filter.NestedGroups | pkg/clients/scim/filter_test.go:125-151 | an Or group inside an And group keeps its own parentheses inside the outer ones |
| Filter.GroupParentheses | pkg/clients/scim/filter.go:39-78 | when no attribute or value holds a parenthesis, the text has exactly one '(' and one ')' per And/Or node |
| Filter.ComparisonExample | pkg/clients/scim/filter_test.go:17-62 | the comparison name eq "John" and its negation read as the tests expect |
| Filter.QuoteInValue | pkg/clients/scim/filter.go:39-41 | values are not escaped: a quote in a value yields text that reads like a second comparison |
| Filter.NotInAttribute | pkg/clients/scim/filter.go:76-78 | an attribute starting with "not " gives the same text as a negation, so the text does not determine the expression |
| HttpClient.DecodeResponse | pkg/utils/httpclient/httpclient.go:16-38 | success exactly when the status is the expected one and the body decodes; the value is the decoded one; every failure is prefixed "invalid response from <api>"; its cause is the decode error, or the unexpected-status sentinel followed by the status text |
| HttpClient.UnexpectedStatus | pkg/utils/httpclient/httpclient.go:29-35 | with an unexpected status, the error is ErrUnexpectedStatusCode and its text is "invalid response from <api>: unexpected status code <status>" |
| HttpClient.NoDecodeOnUnexpectedStatus | pkg/utils/httpclient/httpclient.go:27-31 | with an unexpected status the decoder is never consulted |
| HttpClient.FailurePrefix | pkg/utils/httpclient/httpclient.go:33-35 | every failure's text starts with "invalid response from <api>: ", and a decode error's sentinels stay in the chain |
| Helpers.SearchDocument | pkg/clients/scim/helpers.go:21-31 | the search document has the one SearchRequest schema, the filter's non-empty text, and count and cursor as given |
| Helpers.BuildBody | pkg/clients/scim/helpers.go:20-38 | fails with ErrNoFilter exactly when the filter is nil or Null; otherwise gives the marshalled search document, or the marshal error wrapped under ErrMarshallFail |
| Helpers.QueryFor | pkg/clients/scim/helpers.go:41-56 | cursor, count (in decimal) and the filter text each appear exactly when given, with one value each, and no other key appears |
| Helpers.CountReadsBack | pkg/clients/scim/helpers.go:47-49 | the count parameter parses back to the count given |
| Helpers.BuildQueryString | pkg/clients/scim/helpers.go:41-56 | the url.Values built by successive Add calls equals QueryFor |
| Helpers.BuildQueryStringAndBody | pkg/clients/scim/helpers.go:58-81 | a POST builds only the body, with an empty query, and passes on a body error unchanged; a GET builds only the query, has no body and cannot fail; a POST without a filter fails with ErrNoFilter |
| Scim.AuthorizationValue | pkg/clients/scim/connect.go:62-65 | the Authorization value is "Basic " followed by unpadded base64 that decodes to clientID ":" clientSecret |
| Scim.RequestHeaders | pkg/clients/scim/connect.go:55-65 | Content-Type is set for POST, PUT and PATCH; Accept is always set; Authorization is set when basic auth is configured; every other header entry is kept |
| Scim.FreshRequestHeaders | pkg/clients/scim/connect.go:55-65 | on a new request, Content-Type is present exactly for POST/PUT/PATCH, Authorization exactly with basic auth, Accept always, and nothing else |
| Scim.SelectAuth | pkg/clients/scim/connect.go:70-112 | each of ErrClientID, ErrClientSecret, ErrParsingClientCertificate and ErrHttpCreation is returned exactly under its loading condition; basic mode carries the loaded id and secret, and MTLS mode carries the loaded certificate |
| Scim.SecretWinsOverMtls | pkg/clients/scim/connect.go:76-93 | once a secret is configured, the MTLS setting never changes the outcome |
| Scim.SelectAuthFailures | pkg/clients/scim/connect.go:70-112 | every authentication failure is one of the four sentinels |
| Scim.Finish | pkg/clients/scim/connect.go:160-169 | a failure wraps the operation's marker around exactly the request error or, when the request succeeded, exactly the decode error; success exactly when the request succeeded and the response decoded, and its value is the decoded resource |
| Scim.FinishKeepsCause | pkg/clients/scim/connect.go:160-169 | a sentinel in the request error or in the decode error is still in the chain of the wrapped failure |
| Scim.Client.constructor | pkg/clients/scim/connect.go:43-53 | a client holds its HTTP client, host and optional basic credentials |
| Scim.Client.DoRequest | pkg/clients/scim/connect.go:55-68 | sets the request's header in place to RequestHeaders of the old header, leaves the raw query alone, and hands exactly that request to the transport |
| Scim.Client.MakeAPIRequest | pkg/clients/scim/connect.go:231-258 | sends what ApiCall describes: nothing when the request cannot be made, otherwise one request on host + path with the given raw query and body; failures are prefixed "failed to create request" or "failed to make request" |
| Scim.Client.MakeListRequest | pkg/clients/scim/connect.go:265-287 | sends what ListCall describes: GET base + "/" or POST base + "/.search", with the builder's query and body; a builder failure sends nothing |
| Scim.Client.GetUser | pkg/clients/scim/connect.go:115-138 | sends and returns what GetUserCall describes |
| Scim.Client.ListUsers | pkg/clients/scim/connect.go:143-170 | sends and returns what ListUsersCall describes |
| Scim.Client.GetGroup | pkg/clients/scim/connect.go:173-196 | sends and returns what GetGroupCall describes |
| Scim.Client.ListGroups | pkg/clients/scim/connect.go:201-229 | sends and returns what ListGroupsCall describes |
| Scim.CausesStayInChain | pkg/clients/scim/connect.go:115-229 | for each of the four operations, a sentinel that caused the failure (in the request error or the decode error) stays in the returned error's chain under the marker |
| Scim.FailuresCarryMarker | pkg/clients/scim/connect.go:115-229 | every failure of the four operations has its marker (ErrGetUser, ErrListUsers, ErrGetGroup, ErrListGroups) in the chain, and its text starts with the marker's text |
| Scim.SingleResourceRequest | pkg/clients/scim/connect.go:115-138 | GetUser and GetGroup send one GET of host + "/Users/<id>" or "/Groups/<id>", with RawQuery never assigned and no body; they send nothing exactly when the request cannot be made |
| Scim.ListRequestGet | pkg/clients/scim/connect.go:265-287 | a GET listing sends at most one GET of base + "/" whose raw query is QueryFor, with no body and no Content-Type |
| Scim.ListRequestPost | pkg/clients/scim/connect.go:265-287 | a POST listing sends at most one POST of base + "/.search" with RawQuery set to the empty query, Content-Type set, a present filter, and the marshalled search document as body |
| Scim.PostWithoutFilter | pkg/clients/scim/helpers.go:27-29 | a POST listing without a filter sends nothing and fails with both the operation's marker and ErrNoFilter |
| Scim.UnexpectedStatusText | pkg/clients/scim/connect.go:160-167 | a user listing answered with a non-200 status fails with "error listing SCIM users: invalid response from SCIM: unexpected status code <status>" |
| Scim.NewClientFromAPI | pkg/clients/scim/connect.go:70-112 | fails exactly when SelectAuth fails, with its sentinel; otherwise a fresh client on the configured host, with basic credentials and no certificate, or the MTLS certificate and no basic credentials |
| Plugin.GetFilter | internal/plugin/scim/plugin.go:191-207 | Null exactly for an empty value; otherwise an equality on the value over the set attribute, or the default attribute when none is set |
| Plugin.FilterText | internal/plugin/scim/plugin.go:191-207 | the filter text sent for an id is `<attribute> eq "<id>"`, with displayName as the default attribute |
| Plugin.PluginSearchHasFilter | internal/plugin/scim/plugin.go:142-148 | the plugin's POST searches are never refused with ErrNoFilter, and their document carries the comparison's text |
| Plugin.ProjectUsers | internal/plugin/scim/plugin.go:153-157 | one response user per SCIM user, in order, named by its display name |
| Plugin.ProjectGroups | internal/plugin/scim/plugin.go:182-186 | one response group per SCIM group, in order, named by its display name |
| Plugin.LoadConfiguration | internal/plugin/scim/plugin.go:72-101 | for each of the five steps (YAML, load and parse the group attribute, load and parse the user attribute), the first that fails gives its error prefixed by that step's message; when all succeed, the result is the parsed configuration and both attribute strings |
| Plugin.Plugin.constructor | internal/plugin/scim/plugin.go:57-59 | a new plugin has no client and empty attributes |
| Plugin.Plugin.Configure | internal/plugin/scim/plugin.go:66-113 | a reading failure changes nothing; otherwise the attributes are stored, and then either the client error is returned and the old client kept, or a fresh client is stored with the configured host, the given transport, an empty request log, and the basic credentials or certificate that SelectAuth loaded |
| Plugin.Plugin.GetAllGroups | internal/plugin/scim/plugin.go:115-131 | lists groups with GET and the Null filter; a failure is wrapped under ErrGetGroupsForUser; success projects every group |
| Plugin.Plugin.GetUsersForGroup | internal/plugin/scim/plugin.go:133-160 | no client gives ErrNoScimClient; an empty group id gives ErrNoID under ErrGetUsersForGroup with nothing sent; otherwise one POST search of users by the group filter, with failures wrapped under ErrGetUsersForGroup and success projected |
| Plugin.Plugin.GetGroupsForUser | internal/plugin/scim/plugin.go:162-189 | no client gives ErrNoScimClient; an empty user id gives ErrNoID under ErrGetGroupsForUser with nothing sent; otherwise one POST search of groups by the user filter, with failures wrapped under ErrGetGroupsForUser and success projected |

## Left out

- Plugin.Plugin.GetAllGroups: requires a configured client. The source does not check for one, and Go would dereference a nil client, so the no-client case is not modelled.
- **Unmodelled library calls.** These are function parameters: JSON marshalling and decoding, YAML parsing, the commoncfg loaders and `http.NewRequestWithContext`'s URL check. Only their success or failure, and their result, are modelled.
- **Query encoding.** `url.Values.Encode` is not modelled. The raw query is the `url.Values` map before encoding, and a POST's empty query string is the empty map.
- **Untouched client concerns.**
  - the transport, TLS configuration and certificate parsing
  - the request context
  - closing response bodies
  - logging, `SetLogger` and the mains
- Plugin.Plugin.Configure: oops' `ErrID.Wrapf` is modelled as a message prefix on the cause. The "Identity management Plugin" domain attached by oops is not modelled.
- Configuration.Config: the host is a string, as `connect.go` uses it. `config.go` declares it as a source reference. `AuthContext`, `GroupMembersAttribute`, `ListMethod` and `AllowSearchUsersByGroup` are not read by this code and are omitted.
- **Response records.** The plugin's response users and groups carry only the name, because that is the only field the code fills. Other fields of the protocol messages are not modelled.
- **Resource records.** The SCIM `meta` and `name` members are empty structs in the source and are not modelled.
- **URL parsing.** `http.NewRequestWithContext` parses host + path into a URL. The model keeps it as one string. A host or an id that holds '?' would carry a query of its own, which GetUser and GetGroup leave in place and a listing overwrites. The id is also not escaped. Neither effect is modelled: `Outgoing.rawQuery` records only what the client assigns to RawQuery.
- **Nil members of filters.** In Go, an And, Or or Not filter can hold a nil member, and then `ToString` panics. `Filter.FilterExpr` cannot hold a nil member, so that panic is not modelled. No modelled code builds such a filter.
- **Header multiplicity.** Headers are a map with one value per key, because the client only ever calls `Header.Set`.
- Text.Itoa: decimal text is modelled for unbounded integers, so Go's `int` width is not modelled.
- **Unused sentinels.** `ErrAuthParams` and `ErrPluginCreation` are declared but never returned by the modelled code. They appear only in the sentinel list.
