# Clerk server SDK for Go: session-token checks and query serialisers

This project is a Dafny model of the two parts of the Clerk Go SDK that
contain decision logic rather than plain REST mapping.

- **Session-token verification** (`jwt` package, plus the `VerifyToken`
  options in `clerk`). `Verify` is a fixed checklist that stops at the first
  failing step. It rejects a token with no headers or with an empty `kid`.
  It then picks the signing key: the one supplied by the caller, or else the
  first key in the fetched JSON Web Key Set whose `kid` matches. The header
  `alg` must equal the key's algorithm. The library then checks the
  signature and the clock with a leeway. Next comes the issuer check: a
  non-empty proxy URL replaces the `iss` claim, and a satellite domain
  accepts any issuer. Last comes the authorized-party (`azp`) check.
  `Decode` removes the registered claim names of section 4.1 of RFC 7519
  from the map of extra claims.
- **Query-string serialisers.** `url.Values` is modelled as
  `map<string, seq<string>>` with Go's three ways of writing to it: `Set`
  (replace with one value), `Add` (append) and direct assignment (replace
  with a whole list). Four serialisers are modelled on top of that. They
  are the organization-membership and waitlist-entry `ListParams.ToQuery`,
  the filter query of the sessions `ListAllWithFiltering`, and the
  `include` query of the commerce subscriptions `List`. The per-session
  URLs and the subscription routes, which return the `JoinPath` error
  early, are modelled too.

Some code is only called here, and its body lies outside the modelled
files. That code enters the model as function-valued parameters, so every
contract holds whatever those functions do. It covers go-jose parsing, the
signature check and the time check, the JWKS fetch, `JoinPath`,
`url.Values.Encode`, the base `ListParams.ToQuery` and
`addPaginationParams`.

Modules, one per file: `Wrappers` (Option/Result), `Strings` (`HasPrefix`,
`Contains`, `Join`, `Split`), `Decimal` (`strconv.FormatInt`/`ParseInt` on
`int64`), `Sets`, `UrlValues`, `Api` (the abstract request plumbing), `Jwt`,
`TokensOptions`, `OrganizationMembership`, `WaitlistEntry`, `Sessions`,
`Subscriptions`.

Go's nil is modelled as `None` wherever nil and empty behave differently. A
nil slice filter in organization memberships writes no key. A non-nil empty
slice writes the key with an empty list. Where nil and empty behave the
same (the `Statuses` slice, the `authorizedParties` map), a plain list or
set is used.

## Model

| member | source | states |
|---|---|---|
| Jwt.Verify | jwt/jwt.go:47-104 | a parse failure is returned as `ParseFailed`; claims come back only when every step of the declarative checklist `Accepted` holds, and whenever `Accepted` holds for some claims exactly those claims come back |
| Jwt.VerifyParsed | jwt/jwt.go:52-85 | `MissingHeaders` exactly when there are no headers; with headers, `MissingKid` exactly when the first header's `kid` is empty; a key-selection error exactly when selection fails; `InvalidAlgorithm` exactly when the first header's `alg` differs from the selected key's; a key-selection error is wrapped unchanged as `GetJwkFailed`; once the algorithm matches, a library claims error comes back as `ClaimsFailed` with its message, and decoded claims go on to `CheckClaims` with the library's clock verdict |
| Jwt.CheckClaims | jwt/jwt.go:83-103 | passes exactly when the clock check, the issuer step and the `azp` step pass, returning the claims unchanged; a clock failure wins; `InvalidIssuer` (naming the effective issuer) exactly when the clock passes and the issuer is rejected; `InvalidAuthorizedParty` exactly when the earlier steps pass, `azp` is non-empty, the set is non-empty and `azp` is not in it; the `azp` error names the token's own `azp` |
| Jwt.SetAuthorizedParties | jwt/jwt.go:37-43 | the authorized set afterwards has exactly the argument strings as members, whatever it held before, and no other parameter changes |
| Jwt.FindKey | jwt/jwt.go:113-118 | returns the index of a key with the wanted `kid` such that no earlier key has it, and returns nothing exactly when no key has it |
| Jwt.GetJwk | jwt/jwt.go:106-119 | a failed fetch is passed on; `NoKeyForKid` exactly when no fetched key has the `kid`; after a successful fetch the only possible error is `NoKeyForKid`, so when some key has the `kid` a key is returned; a returned key is a fetched key with that `kid` and no earlier key has it |
| Jwt.IsValidIssuer | jwt/jwt.go:121-124 | an issuer is valid exactly when it starts with `https://clerk.` or `.clerk.accounts` occurs somewhere in it |
| Jwt.SuppliedKeySkipsFetch | jwt/jwt.go:61-67 | with a supplied key the verdict does not depend on what the key-set fetch would return |
| Jwt.OnlyFirstHeaderConsulted | jwt/jwt.go:52-71 | two tokens with equal first headers that the library decodes alike get the same verdict, whatever their other headers |
| Jwt.SatelliteAcceptsAnyIssuer | jwt/jwt.go:92-95 | on a satellite domain `Verify` never rejects for the issuer |
| Jwt.NonSatelliteChecksEffectiveIssuer | jwt/jwt.go:88-95 | off a satellite, a token passing every earlier step whose effective issuer is invalid is rejected with `InvalidIssuer` naming that issuer |
| Jwt.EmptyAuthorizedPartyPasses | jwt/jwt.go:97-101 | an empty authorized set, or an empty `azp` in every decodable token, never leads to an `azp` rejection |
| Jwt.AlgorithmMismatchRejects | jwt/jwt.go:69-71 | a header `alg` different from the selected key's algorithm is rejected, the error naming the key's algorithm |
| Jwt.LibraryErrorsPassedOn | jwt/jwt.go:78-85 | once the key and algorithm steps pass, a failed signature check or decoding is returned as `ClaimsFailed` and a failed clock check as `TimeInvalid`, each carrying the library's own error |
| Jwt.Decode | jwt/jwt.go:133-156 | parse and decode errors are passed on; once both library calls succeed, `Decode` succeeds; on success the registered claims are kept, and the extra claims hold exactly the decoded extra names other than `iss, sub, aud, exp, nbf, iat, jti`, each with its original value |
| Sets.ToSet | jwt/jwt.go:38-41 | the set built by inserting each list element has exactly the list's elements as members, so duplicates collapse |
| TokensOptions.WithAuthorizedParty | clerk/tokens_options.go:9-19 | for every options record: no error, a non-nil set whose members are exactly the arguments replaces the old one, and the leeway is unchanged |
| TokensOptions.WithLeeway | clerk/tokens_options.go:22-27 | for every options record: no error, the leeway becomes exactly the argument, and the authorized set is unchanged |
| TokensOptions.WithNoPartiesInstallsEmptySet | clerk/tokens_options.go:11-16 | with no arguments the option installs the empty set rather than leaving the field nil |
| TokensOptions.WithAuthorizedPartyReplaces | clerk/tokens_options.go:11-16 | applying the option twice gives the same result as applying only the second one, so sets are replaced and never merged |
| UrlValues.Set | organizationmembership/client.go:113 | `Set` leaves the key holding exactly the one new value, whatever it held before, and leaves every other key as it was |
| UrlValues.Add | organizationmembership/client.go:119 | `Add` appends the value after the key's existing values (none if absent) and leaves every other key as it was |
| UrlValues.Assign | organizationmembership/client.go:131 | direct assignment leaves the key holding exactly the given list, even an empty one, and leaves every other key as it was |
| UrlValues.AddEach | waitlistentry/client.go:43-45 | adding each value in turn leaves the query unchanged for an empty list, and otherwise appends the whole list in order after the key's old values; other keys are untouched |
| UrlValues.ApplyAllEffect | organizationmembership/client.go:111-160 | when no two conditional writes target the same key, running them in order gives every key exactly its own write's effect and leaves all other keys as they were |
| OrganizationMembership.ToQuery | organizationmembership/client.go:110-161 | relative to the base pagination query: a set `order_by`/`query` holds exactly its one value; a set `*_query` filter is appended after the base values; a non-nil list filter becomes that key's list exactly, even when empty; a set timestamp is appended in base 10; each nil field leaves its key as the base had it, and so do all keys no filter names |
| OrganizationMembership.FormatOpt | organizationmembership/client.go:148-159 | a timestamp is rendered exactly when it is set, and the rendering parses back to the original `int64` |
| OrganizationMembership.OrganizationIdNotInQuery | organizationmembership/client.go:105-161 | the organization ID never influences the query |
| OrganizationMembership.TimestampFilterRoundTrip | organizationmembership/client.go:148-150 | when the base query lacks the key, a set `created_at_before` yields one value that parses back to the timestamp |
| OrganizationMembership.NoFiltersIsBase | organizationmembership/client.go:110-161 | with every filter nil the query is exactly the base query |
| Decimal.ParseFormatInt | organizationmembership/client.go:149 | parsing the base-10 rendering of any `int64`, negatives and the extremes included, gives back that integer |
| Decimal.FormatIntInjective | organizationmembership/client.go:148-159 | distinct timestamps render to distinct strings |
| WaitlistEntry.ToQuery | waitlistentry/client.go:35-47 | relative to the base query: a set `order_by`/`query` holds exactly its one value; a non-empty status list is appended in order; all other keys, and the three keys when absent or empty, stay as the base had them |
| WaitlistEntry.ToQueryOnPaginationBase | waitlistentry/client.go:35-47 | when the base lacks the three keys: `order_by` is present with one value exactly when `OrderBy` is set; likewise `query`; `status` is present exactly when there are statuses and then equals them element by element; no keys beyond the base keys and these three appear |
| WaitlistEntry.ListWithParamsExample | waitlistentry/waitlistentry_test.go:39-79 | limit 10, offset 20, order `-created_at`, a query and statuses `pending`, `invited` give exactly the multimap the test expects, given a base serialiser rendering `limit` and `offset` in decimal |
| Sessions.ParseStatusString | clerk/sessions.go:34-44 | every status constant's string reads back as that constant |
| Sessions.StatusStringInjective | clerk/sessions.go:36-44 | the seven status constants are pairwise distinct strings |
| Sessions.ListAllQuery | clerk/sessions.go:58-77 | the query is the URL's empty query paginated with the caller's own limit and offset, then `client_id`, `user_id` and `status` each appended exactly when given; `SessionStatus` is an open string type, so any status string, named constant or not, is appended unchanged; nothing else changes |
| Sessions.ListAllQueryFilters | clerk/sessions.go:66-75 | when pagination writes none of the filter keys, each filter key is present exactly when its field is set, with that one value, the status string as given |
| Sessions.ReadRequest | clerk/sessions.go:87-89 | a GET whose path splits on `/` into the base URL's pieces followed by the session ID's pieces, for every ID; for an ID without `/` that is one piece |
| Sessions.RevokeRequest | clerk/sessions.go:99-101 | a POST whose path splits into the base URL's pieces, the session ID's pieces and `revoke`, for every ID |
| Sessions.VerifyUrl | clerk/sessions.go:111-112 | the path splits into the base URL's pieces, the session ID's pieces and `verify`, for every ID |
| Sessions.CreateTokenFromTemplateRequest | clerk/sessions.go:122-124 | a POST whose path splits into the base URL's pieces, the session ID's pieces, `token` and the template slug's pieces, for every ID and slug |
| Strings.Contains | jwt/jwt.go:123 | true exactly when the substring occurs at some position |
| Strings.SplitJoin | commerce/subscriptions/client.go:50 | splitting the comma-joined list recovers it when no element contains the separator |
| Subscriptions.Route | commerce/subscriptions/client.go:30-33 | fails exactly when `JoinPath` fails, returning its error, and otherwise gives a request with the given verb on the joined path |
| Subscriptions.IncludeQuery | commerce/subscriptions/client.go:48-51 | a single-key query `include` with one value, which splits on commas back into the includes when none contains a comma |
| Subscriptions.List | commerce/subscriptions/client.go:41-59 | a `JoinPath` error is returned before any request is built; otherwise a GET on the joined path, with `?` and the encoded include query appended exactly when the includes are non-empty |
| Subscriptions.Create | commerce/subscriptions/client.go:29-34 | fails exactly when `JoinPath` fails, returning its error; otherwise a POST on the joined `/commerce`, `/subscriptions` path |
| Subscriptions.ListInvoices | commerce/subscriptions/client.go:61-66 | fails exactly when `JoinPath` fails, returning its error; otherwise a GET on the joined path of the subscription's invoices |
| Subscriptions.ListByUserId | commerce/subscriptions/client.go:75-79 | fails exactly when `JoinPath` fails, returning its error; otherwise a GET on the segments `commerce`, `subscribers`, subscriber type, ID, `subscriptions` in that order |
| Subscriptions.GetSubscription | commerce/subscriptions/client.go:86-90 | fails exactly when `JoinPath` fails, returning its error; otherwise a GET on the joined subscription path |
| Subscriptions.Update | commerce/subscriptions/client.go:97-101 | fails exactly when `JoinPath` fails, returning its error; otherwise a PUT on the joined subscription path |

## Left out

- HTTP transport and request plumbing (`Backend.Call`, `NewAPIRequest`, `SetParams`, `NewRequest`, `client.Do`) and JSON (un)marshalling: I/O. The model stops at the method and path, or at the query multimap, that is handed to the transport.
- Compact-JWS parsing, signature verification and `ValidateWithLeeway` belong to the go-jose library. They are fields of `Jwt.Jose`, and the current time is a parameter. Durations are plain `int64` nanoseconds, not real time.
- The JWKS network fetch `jwks.Get`: its outcome is a parameter, and only the selection over the returned keys is modelled. Go fetches only when no key is supplied. The model expresses this through `Jwt.SuppliedKeySkipsFetch`.
- Extra claims whose value is a JSON number are `Jwt.Json.JNumber` with a `real`. Go decodes them as `float64`, so rounding of numbers that `float64` cannot hold exactly is not modelled.
- `Jwt.SessionClaims` carries the registered claims, `azp` and `sid`. The definition of `clerk.SessionClaims` is not part of this model; any further fields it has are left out, because no modelled check reads them.
- `VerifyParams.CustomClaims`: it only adds a second decoding target for the library. Its possible decoding error is folded into the library's claims result.
- `JoinPath`, `url.Values.Encode`, the base `ListParams.ToQuery` and `addPaginationParams` are not part of this model. They enter as parameters (module `Api`). As a result, facts about the final encoded string, such as `Encode` dropping keys with empty lists, are not stated.
- `SessionsUrl`: the constant is not defined in the modelled files and is a parameter.
- `ListAllWithFiltering` starts from `req.URL.Query()`. The model assumes the request URL for `sessions` carries no query of its own, and it ignores the discarded `NewRequest` error.
- The `verifyTokenOptions` record is not part of this model. Only the two fields that the options write are modelled.
- Pagination `limit`/`offset` are unbounded integers. Go's `int` width does not matter to any modelled property.
- Operations with no logic beyond a verb and a path are not modelled. These are organization membership `Create`/`Update`/`Delete`/`List`, waitlist `List`/`Create`, sessions `ListAll`, the other commerce clients, OAuth applications, invitations and the generated `api.go` wrappers. `Subscriptions.Route` covers their shared early return on a `JoinPath` error.
- `ListByUserID` uses `params.SubscriberType` and `params.ID` as strings. The `ListSubscriptionsByUserIDParams` type in `commerce.go` has only an `ID *string`, because the files come from different SDK versions. The model follows the client code and takes two strings.
- The invitation list query is not modelled. `invitation/client.go` ignores its params, while its test expects query keys, so the two disagree.
