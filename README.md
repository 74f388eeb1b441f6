# QQ login handler

This is a Dafny model of `QQHandler`, the ASP.NET Core authentication handler for "log in with QQ"
in JoyMoe.AspNetCore.Authentication.

Before the login, the framework builds the challenge redirect. Its scope parameter comes from
`FormatScope`, which joins the requested scopes with commas.

A login then goes through three steps:

1. **Code exchange** (`ExchangeCodeAsync`). The handler posts a fixed five-field form to the token
   endpoint. A non-success response throws. Otherwise the query-string body becomes the token response.
2. **Identifier lookup** (`GetUserIdentifierAsync`). The handler asks the identification endpoint
   for the user's `openid`, sending the access token. QQ wraps the JSON in a callback, so when the
   first `{` is past index 0, the body is cut from that `{` to the last `}`. A body with no `{` is
   left whole; the edge cases with no `}` after the `{` are listed below.
3. **Ticket creation** (`CreateTicketAsync`):
   - A null or empty identifier throws.
   - Otherwise a NameIdentifier claim is added to the identity in place.
   - Then the user information is requested with a fixed three-field form.
   - The user-information request must succeed, and its `ret` field must convert to 0.
   - The claim actions run, and the ticket is returned.

Layout:

- `wrappers.dfy`: `Option` and `Result`.
- `text.dfy`: the .NET string operations the handler uses (`IndexOf`, `LastIndexOf`, `Join`), and
  `Split`, against which Join's round trip is stated, with the lemmas that Split and Join undo each
  other.
- `json.dfy`: a parsed payload as a map from keys to JSON values. It also holds Newtonsoft's typed
  lookups `Value<string>` and `Value<int>` as the handler uses them. A missing key gives null or 0.
  As text, an integer must fit in Int64. As an int, it must fit in Int32, and a string goes
  through `Int32.Parse`.
- `qq_handler.dfy`: the handler.
  - Pure functions specify each step: `TrimPadding`, `IdentifierOutcome`, `ExchangeOutcome`,
    `TicketOutcome`, `LoginOutcome` and `FormatScope`.
  - `ClaimsIdentity` is a class because the handler updates the identity in place.
  - `Backchannel` is a class with one fixed response per endpoint and a log of every request sent.
  - `QQHandler` is a class with the methods `ExchangeCode`, `GetUserIdentifier` and `CreateTicket`.
    Each method is proved equal to its specification function, on the result, on the claims the
    identity ends with, and on the requests sent.
- `qq_properties.dfy`: the properties of the padding stripper, the login decision, the forms and
  the scope format.

Inputs from outside the handler are parameters:

- the three endpoint responses: a success flag plus a body, or, for the token endpoint, the
  already-split query fields;
- JSON parsing, a `Parser` function that fails on the empty text;
- the framework's claim actions and creating-ticket event, a `ClaimHook` that appends claims.

Behaviour of the code that is easy to misread:

- The code strips padding only from the identifier response (lines 111-119). The user-information
  body is parsed as it is (line 48).
- When no `}` follows the first `{`, the code does not always report a malformed response.
  `Substring` throws if the computed length is negative, and yields the empty text (which then fails
  to parse) if the length is zero: that happens when a `}` sits just before the `{`.
- A body that already starts with `{` is not trimmed, so trailing text after its last `}` is kept.
- A user-information payload with no `ret` field passes the check. `Value<int>` returns the default 0.

## Model

| member | source | states |
|---|---|---|
| Text.IndexOf | src/JoyMoe.AspNetCore.Authentication.QQ/QQHandler.cs:113 | the result is -1 exactly when the character is absent, and otherwise the index of its first occurrence |
| Text.LastIndexOf | src/JoyMoe.AspNetCore.Authentication.QQ/QQHandler.cs:116 | the result is -1 exactly when the character is absent, and otherwise the index of its last occurrence |
| Text.SplitJoin | src/JoyMoe.AspNetCore.Authentication.QQ/QQHandler.cs:124 | splitting a comma join of a non-empty list of comma-free parts gives that list back |
| Text.JoinSplit | src/JoyMoe.AspNetCore.Authentication.QQ/QQHandler.cs:124 | joining the pieces of any split gives the original text back |
| Json.ValueAsString | src/JoyMoe.AspNetCore.Authentication.QQ/QQHandler.cs:121 | an absent `openid` gives null; a string gives that text; an integer converts exactly when it fits in Int64 |
| Json.IntToDecimal | src/JoyMoe.AspNetCore.Authentication.QQ/QQHandler.cs:121 | the text of an integer is non-empty, starts with `-` exactly when it is negative, and is otherwise digits; ParseInt32OfDecimal reads it back |
| Json.ParseInt32 | src/JoyMoe.AspNetCore.Authentication.QQ/QQHandler.cs:50 | a successful parse fits in Int32; ParseInt32OfDecimal shows that it inverts IntToDecimal on every Int32 |
| Json.ValueAsInt32 | src/JoyMoe.AspNetCore.Authentication.QQ/QQHandler.cs:50 | a successful read of `ret` fits in Int32 |
| Json.ParseInt32OfDecimal | src/JoyMoe.AspNetCore.Authentication.QQ/QQHandler.cs:50 | Int32.Parse reads back the decimal text of every Int32 |
| Json.QuotedIntegerConvertsAlike | src/JoyMoe.AspNetCore.Authentication.QQ/QQHandler.cs:50-51 | a `ret` given as an in-range number or as its quoted decimal text converts to the same value, namely that number |
| Json.IntegerTextRoundTrip | src/JoyMoe.AspNetCore.Authentication.QQ/QQHandler.cs:121 | an Int32 field read as a string gives its decimal text, and reading that text as an int gives the number back |
| QQHandler.IdentifierOutcome | src/JoyMoe.AspNetCore.Authentication.QQ/QQHandler.cs:94-122 | success needs an access token; without one nothing is sent and the lookup fails with MissingAccessToken; with one, exactly one identifier request carrying it is sent; a non-success response fails. IdentifierIsOpenId gives the value |
| QQHandler.TrimPadding | src/JoyMoe.AspNetCore.Authentication.QQ/QQHandler.cs:113-117 | it fails only with PaddingOutOfRange, and only when the first `{` is past index 0. A changed body comes back empty or as text that starts with `{` and ends with `}`. The TrimPadding lemmas cover every case |
| QQHandler.FormatScope | src/JoyMoe.AspNetCore.Authentication.QQ/QQHandler.cs:124 | the comma join of the scopes; FormatScopeEmpty, FormatScopeRoundTrip, FormatScopeOnto and FormatScopeInjective state its properties |
| Text.Join | src/JoyMoe.AspNetCore.Authentication.QQ/QQHandler.cs:124 | `string.Join` with a one-character separator; SplitJoin and JoinSplit show that Split inverts it |
| QQHandler.ExchangeForm | src/JoyMoe.AspNetCore.Authentication.QQ/QQHandler.cs:70-77 | the token request's form; ExchangeFormFields states its keys and values |
| QQHandler.ExchangeOutcome | src/JoyMoe.AspNetCore.Authentication.QQ/QQHandler.cs:68-92 | sends only the exchange form, and fails exactly on a non-success response; ExchangeCode is proved equal to it, and LoginStopsOnTokenFailure and LoginTicketOnlyIfAllSucceed use it |
| QQHandler.UserInformationForm | src/JoyMoe.AspNetCore.Authentication.QQ/QQHandler.cs:32-37 | the user-information request's form; UserInformationFormFields states its keys and values |
| QQHandler.NameIdentifierClaim | src/JoyMoe.AspNetCore.Authentication.QQ/QQHandler.cs:30 | a NameIdentifier claim of string value type whose value is the identifier; its issuer is the given one, or `LOCAL AUTHORITY` when that is empty |
| QQHandler.IsNullOrEmpty | src/JoyMoe.AspNetCore.Authentication.QQ/QQHandler.cs:25 | `string.IsNullOrEmpty` on a possibly null identifier; MissingIdentifierStopsEarly states what it guards |
| QQHandler.TicketOutcome | src/JoyMoe.AspNetCore.Authentication.QQ/QQHandler.cs:22-66 | ticket creation over the responses; CreateTicket is proved equal to it, and TicketIffAllStepsSucceed, TicketClaims, TicketSubjectIsOpenId, MissingIdentifierStopsEarly, LaterFailureKeepsNameIdentifier and RetDecides characterise it |
| QQHandler.LoginOutcome | src/JoyMoe.AspNetCore.Authentication.QQ/QQHandler.cs:68-92 | the exchange followed by ticket creation for a fresh identity; LoginTicketOnlyIfAllSucceed and LoginStopsOnTokenFailure characterise it |
| QQHandler.ClaimsIdentity.AddClaim | src/JoyMoe.AspNetCore.Authentication.QQ/QQHandler.cs:30 | the identity's claims become the old claims followed by the new one |
| QQHandler.ClaimsIdentity.AddClaims | src/JoyMoe.AspNetCore.Authentication.QQ/QQHandler.cs:61 | the identity's claims become the old claims followed by the added ones, in order |
| QQHandler.Backchannel.PostToken | src/JoyMoe.AspNetCore.Authentication.QQ/QQHandler.cs:79 | the token form is logged as sent, and the token endpoint's response is returned |
| QQHandler.Backchannel.GetIdentifier | src/JoyMoe.AspNetCore.Authentication.QQ/QQHandler.cs:96-99 | the identifier request carrying the access token is logged, and the identification response is returned |
| QQHandler.Backchannel.PostUserInformation | src/JoyMoe.AspNetCore.Authentication.QQ/QQHandler.cs:39 | the user-information form is logged as sent, and that endpoint's response is returned |
| QQHandler.QQHandler.ExchangeCode | src/JoyMoe.AspNetCore.Authentication.QQ/QQHandler.cs:68-92 | posts the form built field by field, which is the fixed exchange form; fails exactly when the response is not a success; otherwise returns the token fields |
| QQHandler.QQHandler.GetUserIdentifier | src/JoyMoe.AspNetCore.Authentication.QQ/QQHandler.cs:94-122 | result and requests sent equal the identifier-lookup specification: token check, status check, padding strip, parse, `openid` read |
| QQHandler.QQHandler.CreateTicket | src/JoyMoe.AspNetCore.Authentication.QQ/QQHandler.cs:22-66 | result, the identity's claims afterwards and the requests sent equal the ticket specification |
| QQProperties.TrimPaddingCutsToBraces | src/JoyMoe.AspNetCore.Authentication.QQ/QQHandler.cs:113-117 | when the first `{` is past index 0 and a `}` follows it, the body becomes exactly the slice from the first `{` to the last `}`, which starts with `{` and ends with `}` |
| QQProperties.TrimPaddingKeepsUnpadded | src/JoyMoe.AspNetCore.Authentication.QQ/QQHandler.cs:113-114 | a body with no `{`, or starting with `{`, is returned unchanged, trailing text included |
| QQProperties.TrimPaddingWithoutClosingBrace | src/JoyMoe.AspNetCore.Authentication.QQ/QQHandler.cs:113-117 | with the first `{` past index 0 and no `}` after it, the result is the empty text when a `}` immediately precedes that `{`, and otherwise the out-of-range error |
| QQProperties.TrimPaddingIdempotent | src/JoyMoe.AspNetCore.Authentication.QQ/QQHandler.cs:113-117 | trimming a successfully trimmed body changes nothing |
| QQProperties.IdentifierFailsWithoutClosingBrace | src/JoyMoe.AspNetCore.Authentication.QQ/QQHandler.cs:116-119 | a padded identifier body with no `}` after its first `{` always makes the identifier lookup fail |
| QQProperties.IdentifierIsOpenId | src/JoyMoe.AspNetCore.Authentication.QQ/QQHandler.cs:111-121 | given an access token, a successful response, and a trimmed body that parses to a payload whose `openid` is the text `s`, the identifier is exactly `s` |
| QQProperties.TicketSubjectIsOpenId | src/JoyMoe.AspNetCore.Authentication.QQ/QQHandler.cs:30 | when a ticket is produced and the identification body's `openid` is the text `s`, the ticket's NameIdentifier claim has value exactly `s` |
| QQProperties.MissingIdentifierStopsEarly | src/JoyMoe.AspNetCore.Authentication.QQ/QQHandler.cs:24-28 | a null or empty identifier fails with MissingIdentifier; no claim is added and only the identifier request was sent |
| QQProperties.UserInformationRequestedOnlyWithIdentifier | src/JoyMoe.AspNetCore.Authentication.QQ/QQHandler.cs:24-39 | the user-information request is sent only after a non-empty identifier, after the NameIdentifier claim, as the second and last request, with the fixed form |
| QQProperties.TicketIffAllStepsSucceed | src/JoyMoe.AspNetCore.Authentication.QQ/QQHandler.cs:22-66 | a ticket is produced if and only if all of these hold: the access token is present, both responses succeed, both bodies parse, `openid` converts to a non-empty string, and `ret` converts to 0 |
| QQProperties.TicketClaims | src/JoyMoe.AspNetCore.Authentication.QQ/QQHandler.cs:30 | the ticket's claims are the earlier claims, then the NameIdentifier claim whose value is exactly the identifier, then the hook's claims |
| QQProperties.LaterFailureKeepsNameIdentifier | src/JoyMoe.AspNetCore.Authentication.QQ/QQHandler.cs:30-57 | a failure after the identifier was found leaves the identity holding the NameIdentifier claim |
| QQProperties.RetDecides | src/JoyMoe.AspNetCore.Authentication.QQ/QQHandler.cs:50-57 | a payload without `ret` yields a ticket, and a nonzero `ret` fails with that status |
| QQProperties.ExchangeFormFields | src/JoyMoe.AspNetCore.Authentication.QQ/QQHandler.cs:70-77 | the exchange form has exactly the keys client_id, client_secret, redirect_uri, code and grant_type, with their values and grant_type = authorization_code |
| QQProperties.UserInformationFormFields | src/JoyMoe.AspNetCore.Authentication.QQ/QQHandler.cs:32-37 | the user-information form has exactly oauth_consumer_key = client id, access_token = the token and openid = the identifier |
| QQProperties.LoginTicketOnlyIfAllSucceed | src/JoyMoe.AspNetCore.Authentication.QQ/QQHandler.cs:40-57 | a login ticket implies a successful token exchange carrying an access token and successful identifier and user-information responses; the requests sent are exactly token, identifier, user information, in that order |
| QQProperties.LoginStopsOnTokenFailure | src/JoyMoe.AspNetCore.Authentication.QQ/QQHandler.cs:79-86 | a failed token exchange ends the login with only the token request sent and no claims |
| QQProperties.FormatScopeEmpty | src/JoyMoe.AspNetCore.Authentication.QQ/QQHandler.cs:124 | no scopes format as the empty text |
| QQProperties.FormatScopeRoundTrip | src/JoyMoe.AspNetCore.Authentication.QQ/QQHandler.cs:124 | splitting the formatted scope on `,` gives the non-empty, comma-free scope list back in order |
| QQProperties.FormatScopeOnto | src/JoyMoe.AspNetCore.Authentication.QQ/QQHandler.cs:124 | every text is the format of its own comma pieces |
| QQProperties.FormatScopeInjective | src/JoyMoe.AspNetCore.Authentication.QQ/QQHandler.cs:124 | two non-empty, comma-free scope lists with the same format are equal |

## Left out

- HTTP transport is not modelled. Each endpoint gives one fixed response: a success flag and a body.
  Status codes, headers, async/await, cancellation through the request-aborted token, and logging are left out.
- JSON parsing (`JObject.Parse`) is a parameter. The model only fixes that the empty text never parses.
  `JsonValue` has no floating-point case, so the rounding a fractional `ret` undergoes is not modelled.
  A `ret` beyond Int64, which Newtonsoft holds as a BigInteger, fails the same way as an Int32 overflow.
- Json.ParseInt32 models white space, one sign and decimal digits. Trailing NUL characters, which
  Int32.Parse also accepts, are not modelled.
- `QueryHelpers.ParseQuery` (lines 88-89) is given as its result: the token response's fields.
  Multi-valued fields arrive already joined.
- `QueryHelpers.AddQueryString` (line 96) is only modelled through one assumed behaviour.
  A missing access token is taken to make it throw, which gives MissingAccessToken; its source is not
  part of this model. The identifier request is recorded by its access token, not by its URL.
- The claim actions and `Options.Events.CreatingTicket` (lines 61-63) are one `ClaimHook` that
  appends claims. An event that replaces the principal, edits the authentication properties or throws is not modelled.
- The ticket holds only the identity's claims. The authentication properties and the scheme name
  pass through untouched and are left out.
- The inherited OAuth handler is external and left out: state validation, redirects, and its checks
  between the exchange and ticket creation (token errors, an empty access token).
  LoginOutcome composes the two steps directly.
- `Options.ClaimsIssuer` can be null in the framework; the model has no null string, so an empty
  `claimsIssuer` stands for both, and either one gives the claim the default issuer.
- `OAuthOptions.Scope` is a set in the framework. The model takes the scopes as a sequence in
  enumeration order.
- String search is ordinal. The culture-sensitive matching .NET may apply to `IndexOf(string)` is not modelled.
- The kinds of exception (HttpRequestException, ArgumentOutOfRangeException, JSON and cast errors)
  and their messages are reduced to the cases of `AuthError`.
- src/JoyMoe.AspNetCore.Authentication.OpenId/Events/OpenIdContext.cs is not part of this model.
  It holds only property accessors.
- src/JoyMoe.AspNetCore.Authentication.Weibo/WeiboOptions.cs is not part of this model. It holds
  configuration constants, and its claim mapping is framework behaviour.
