/**
 * The QQ login handler: the code-for-token exchange, the identifier lookup with its
 * callback-padding stripper, ticket creation and scope formatting.
 *
 * The network is a `Backchannel` whose three endpoints each answer with one fixed response and
 * which records every request it is sent. JSON parsing is a `Parser` parameter, and the framework's
 * claim actions and creating-ticket event are one `ClaimHook` that may append claims.
 */
module QQHandler {
  import opened Wrappers
  import opened Text
  import opened Json

  /** `ClaimTypes.NameIdentifier` and `ClaimValueTypes.String`. */
  const NameIdentifierType: string := "http://schemas.xmlsoap.org/ws/2005/05/identity/claims/nameidentifier"
  const StringValueType: string := "http://www.w3.org/2001/XMLSchema#string"

  /** `ClaimsIdentity.DefaultIssuer`, which a `Claim` records when given a null or empty issuer. */
  const DefaultIssuer: string := "LOCAL AUTHORITY"

  /** The option values the handler reads; an empty `claimsIssuer` also stands for a null one. */
  datatype QQOptions = QQOptions(clientId: string, clientSecret: string, claimsIssuer: string, scope: seq<string>)

  datatype Claim = Claim(claimType: string, value: string, valueType: string, issuer: string)

  /** Form fields in the order they are posted. */
  type Form = seq<(string, string)>

  /** What the handler sends over the backchannel. */
  datatype Request =
    | TokenRequest(form: Form)
    | IdentifierRequest(accessToken: string)
    | UserInformationRequest(form: Form)

  /** A response: whether its status code is a success one, and its body. */
  datatype HttpResponse = HttpResponse(success: bool, body: string)

  /** The token endpoint's response; its query-string body is given already split into fields. */
  datatype TokenEndpointResponse = TokenEndpointResponse(success: bool, fields: map<string, string>)

  /** `OAuthTokenResponse` built from the token endpoint's fields. */
  datatype TokenResponse = TokenResponse(payload: map<string, string>) {
    function AccessToken(): Option<string> { Get(payload, "access_token") }
  }

  /** The ticket handed back to the framework: the identity's claims. */
  datatype Ticket = Ticket(claims: seq<Claim>)

  /** Each way a login attempt can throw. */
  datatype AuthError =
    | TokenRequestFailed
    | MissingAccessToken
    | IdentifierRequestFailed
    | PaddingOutOfRange
    | MalformedIdentifierBody
    | OpenIdNotConvertible
    | MissingIdentifier
    | UserInformationRequestFailed
    | MalformedUserInformation
    | RetNotConvertible
    | NonZeroRet(status: int)

  /** `JObject.Parse`: a payload, or None when the text is not a JSON object. */
  type Parser = string -> Option<Payload>

  /** The claims the claim actions and the creating-ticket event append, given the user information. */
  type ClaimHook = Payload -> seq<Claim>

  /** `JObject.Parse` on the given parser; the empty text is never a JSON object. */
  function ParseObject(parse: Parser, text: string): Option<Payload>
  {
    if text == "" then None else parse(text)
  }

  // ---------------------------------------------------------------- FormatScope

  /** The scope parameter: the requested scopes separated by commas. */
  function FormatScope(options: QQOptions): string
  {
    Join(',', options.scope)
  }

  // ---------------------------------------------------------------- ExchangeCodeAsync

  /** The form posted to the token endpoint. */
  function ExchangeForm(options: QQOptions, code: string, redirectUri: string): Form
  {
    [("client_id", options.clientId),
     ("client_secret", options.clientSecret),
     ("redirect_uri", redirectUri),
     ("code", code),
     ("grant_type", "authorization_code")]
  }

  /** What one step of the login sends and what it yields. */
  datatype Step<T> = Step(sent: seq<Request>, result: Result<T, AuthError>)

  /** The code-for-token exchange against a given token-endpoint response. */
  function ExchangeOutcome(options: QQOptions, code: string, redirectUri: string,
                           response: TokenEndpointResponse): (o: Step<TokenResponse>)
    ensures o.sent == [TokenRequest(ExchangeForm(options, code, redirectUri))]
    ensures o.result.Success? <==> response.success
    ensures o.result.Success? ==> o.result.value.AccessToken() == Get(response.fields, "access_token")
  {
    var sent := [TokenRequest(ExchangeForm(options, code, redirectUri))];
    if !response.success then Step(sent, Failure(TokenRequestFailed))
    else Step(sent, Success(TokenResponse(response.fields)))
  }

  // ---------------------------------------------------------------- GetUserIdentifierAsync

  /** The callback padding stripper: when the first `{` is not at the start, cut the body from it
      to the last `}`; a negative length makes `Substring` throw. */
  function TrimPadding(body: string): (r: Result<string, AuthError>)
    ensures r.Failure? ==> r.error == PaddingOutOfRange && 0 < IndexOf(body, '{')
    ensures r.Success? && r.value != body ==>
              r.value == "" || (|r.value| >= 2 && r.value[0] == '{' && r.value[|r.value| - 1] == '}')
  {
    var index := IndexOf(body, '{');
    if index > 0 then
      var length := LastIndexOf(body, '}') - index + 1;
      if length < 0 then Failure(PaddingOutOfRange)
      else Success(body[index..index + length])
    else Success(body)
  }

  /** The identifier lookup: `openid` of the (trimmed) identification response, possibly null. */
  function IdentifierOutcome(tokens: TokenResponse, response: HttpResponse, parse: Parser): (o: Step<Option<string>>)
    ensures o.result.Success? ==> tokens.AccessToken().Some?
    ensures tokens.AccessToken().None? ==> o == Step([], Failure(MissingAccessToken))
    ensures tokens.AccessToken().Some? ==> o.sent == [IdentifierRequest(tokens.AccessToken().value)]
    ensures !response.success ==> o.result.Failure?
  {
    match tokens.AccessToken()
    case None => Step([], Failure(MissingAccessToken))
    case Some(token) =>
      var sent := [IdentifierRequest(token)];
      if !response.success then Step(sent, Failure(IdentifierRequestFailed))
      else
        match TrimPadding(response.body)
        case Failure(e) => Step(sent, Failure(e))
        case Success(body) =>
          match ParseObject(parse, body)
          case None => Step(sent, Failure(MalformedIdentifierBody))
          case Some(payload) =>
            match ValueAsString(payload, "openid")
            case Failure(_) => Step(sent, Failure(OpenIdNotConvertible))
            case Success(openid) => Step(sent, Success(openid))
  }

  // ---------------------------------------------------------------- CreateTicketAsync

  predicate IsNullOrEmpty(s: Option<string>) { s.None? || s.value == "" }

  /** The claim added for the identifier; an empty issuer (which also stands for null) becomes the default. */
  function NameIdentifierClaim(identifier: string, issuer: string): (c: Claim)
    ensures c.claimType == NameIdentifierType && c.value == identifier && c.valueType == StringValueType
    ensures c.issuer != "" && (issuer != "" ==> c.issuer == issuer)
    ensures issuer == "" ==> c.issuer == DefaultIssuer
  {
    Claim(NameIdentifierType, identifier, StringValueType, if issuer == "" then DefaultIssuer else issuer)
  }

  /** The form posted to the user-information endpoint. */
  function UserInformationForm(options: QQOptions, accessToken: string, identifier: string): Form
  {
    [("oauth_consumer_key", options.clientId),
     ("access_token", accessToken),
     ("openid", identifier)]
  }

  /** Ticket creation: the requests sent, the identity's claims afterwards, and the ticket or error. */
  datatype TicketStep = TicketStep(sent: seq<Request>, claims: seq<Claim>, result: Result<Ticket, AuthError>)

  function TicketOutcome(options: QQOptions, claims: seq<Claim>, tokens: TokenResponse,
                         identification: HttpResponse, userInformation: HttpResponse,
                         parse: Parser, hook: ClaimHook): TicketStep
  {
    var lookup := IdentifierOutcome(tokens, identification, parse);
    if lookup.result.Failure? then TicketStep(lookup.sent, claims, Failure(lookup.result.error))
    else if IsNullOrEmpty(lookup.result.value) then TicketStep(lookup.sent, claims, Failure(MissingIdentifier))
    else
      var identifier := lookup.result.value.value;
      var named := claims + [NameIdentifierClaim(identifier, options.claimsIssuer)];
      var sent := lookup.sent + [UserInformationRequest(UserInformationForm(options, tokens.AccessToken().value, identifier))];
      if !userInformation.success then TicketStep(sent, named, Failure(UserInformationRequestFailed))
      else
        match ParseObject(parse, userInformation.body)
        case None => TicketStep(sent, named, Failure(MalformedUserInformation))
        case Some(payload) =>
          match ValueAsInt32(payload, "ret")
          case Failure(_) => TicketStep(sent, named, Failure(RetNotConvertible))
          case Success(status) =>
            if status != 0 then TicketStep(sent, named, Failure(NonZeroRet(status)))
            else
              var all := named + hook(payload);
              TicketStep(sent, all, Success(Ticket(all)))
  }

  /** The exchange followed directly by ticket creation, for a fresh identity. */
  function LoginOutcome(options: QQOptions, code: string, redirectUri: string,
                        token: TokenEndpointResponse, identification: HttpResponse,
                        userInformation: HttpResponse, parse: Parser, hook: ClaimHook): TicketStep
  {
    var exchange := ExchangeOutcome(options, code, redirectUri, token);
    if exchange.result.Failure? then TicketStep(exchange.sent, [], Failure(exchange.result.error))
    else
      var ticket := TicketOutcome(options, [], exchange.result.value, identification, userInformation, parse, hook);
      TicketStep(exchange.sent + ticket.sent, ticket.claims, ticket.result)
  }

  // ---------------------------------------------------------------- mutable objects

  /** The `ClaimsIdentity` being built, updated in place. */
  class ClaimsIdentity {
    var claims: seq<Claim>

    constructor ()
      ensures claims == []
    {
      claims := [];
    }

    method AddClaim(c: Claim)
      modifies this
      ensures claims == old(claims) + [c]
    {
      claims := claims + [c];
    }

    method AddClaims(cs: seq<Claim>)
      modifies this
      ensures claims == old(claims) + cs
    {
      claims := claims + cs;
    }
  }

  /** The HTTP client: one fixed response per endpoint, and the log of requests sent. */
  class Backchannel {
    const tokenEndpoint: TokenEndpointResponse
    const identificationEndpoint: HttpResponse
    const userInformationEndpoint: HttpResponse
    var sent: seq<Request>

    constructor (token: TokenEndpointResponse, identification: HttpResponse, userInformation: HttpResponse)
      ensures tokenEndpoint == token && identificationEndpoint == identification
      ensures userInformationEndpoint == userInformation && sent == []
    {
      tokenEndpoint, identificationEndpoint, userInformationEndpoint := token, identification, userInformation;
      sent := [];
    }

    method PostToken(form: Form) returns (r: TokenEndpointResponse)
      modifies this
      ensures r == tokenEndpoint && sent == old(sent) + [TokenRequest(form)]
    {
      sent := sent + [TokenRequest(form)];
      r := tokenEndpoint;
    }

    method GetIdentifier(accessToken: string) returns (r: HttpResponse)
      modifies this
      ensures r == identificationEndpoint && sent == old(sent) + [IdentifierRequest(accessToken)]
    {
      sent := sent + [IdentifierRequest(accessToken)];
      r := identificationEndpoint;
    }

    method PostUserInformation(form: Form) returns (r: HttpResponse)
      modifies this
      ensures r == userInformationEndpoint && sent == old(sent) + [UserInformationRequest(form)]
    {
      sent := sent + [UserInformationRequest(form)];
      r := userInformationEndpoint;
    }
  }

  class QQHandler {
    const options: QQOptions
    const backchannel: Backchannel
    const parse: Parser
    const hook: ClaimHook

    constructor (options: QQOptions, backchannel: Backchannel, parse: Parser, hook: ClaimHook)
      ensures this.options == options && this.backchannel == backchannel
      ensures this.parse == parse && this.hook == hook
    {
      this.options, this.backchannel, this.parse, this.hook := options, backchannel, parse, hook;
    }

    method ExchangeCode(code: string, redirectUri: string) returns (r: Result<TokenResponse, AuthError>)
      modifies backchannel
      ensures var o := ExchangeOutcome(options, code, redirectUri, backchannel.tokenEndpoint);
              r == o.result && backchannel.sent == old(backchannel.sent) + o.sent
    {
      var form := [];
      form := form + [("client_id", options.clientId)];
      form := form + [("client_secret", options.clientSecret)];
      form := form + [("redirect_uri", redirectUri)];
      form := form + [("code", code)];
      form := form + [("grant_type", "authorization_code")];
      assert form == ExchangeForm(options, code, redirectUri);
      var response := backchannel.PostToken(form);
      if !response.success {
        return Failure(TokenRequestFailed);
      }
      r := Success(TokenResponse(response.fields));
    }

    method GetUserIdentifier(tokens: TokenResponse) returns (r: Result<Option<string>, AuthError>)
      modifies backchannel
      ensures var o := IdentifierOutcome(tokens, backchannel.identificationEndpoint, parse);
              r == o.result && backchannel.sent == old(backchannel.sent) + o.sent
    {
      if tokens.AccessToken().None? {
        return Failure(MissingAccessToken);
      }
      var response := backchannel.GetIdentifier(tokens.AccessToken().value);
      if !response.success {
        return Failure(IdentifierRequestFailed);
      }
      var body := TrimPadding(response.body);
      if body.Failure? {
        return Failure(body.error);
      }
      var payload := ParseObject(parse, body.value);
      if payload.None? {
        return Failure(MalformedIdentifierBody);
      }
      var openid := ValueAsString(payload.value, "openid");
      if openid.Failure? {
        return Failure(OpenIdNotConvertible);
      }
      r := Success(openid.value);
    }

    method CreateTicket(identity: ClaimsIdentity, tokens: TokenResponse) returns (r: Result<Ticket, AuthError>)
      modifies identity, backchannel
      ensures var o := TicketOutcome(options, old(identity.claims), tokens, backchannel.identificationEndpoint,
                                     backchannel.userInformationEndpoint, parse, hook);
              r == o.result && identity.claims == o.claims && backchannel.sent == old(backchannel.sent) + o.sent
    {
      ghost var claims0 := identity.claims;
      ghost var sent0 := backchannel.sent;
      ghost var o := TicketOutcome(options, claims0, tokens, backchannel.identificationEndpoint,
                                   backchannel.userInformationEndpoint, parse, hook);
      ghost var lookup := IdentifierOutcome(tokens, backchannel.identificationEndpoint, parse);
      var identifier := GetUserIdentifier(tokens);
      assert identifier == lookup.result && backchannel.sent == sent0 + lookup.sent;
      if identifier.Failure? {
        return Failure(identifier.error);
      }
      if IsNullOrEmpty(identifier.value) {
        return Failure(MissingIdentifier);
      }
      var openid := identifier.value.value;
      identity.AddClaim(NameIdentifierClaim(openid, options.claimsIssuer));

      var form := [];
      form := form + [("oauth_consumer_key", options.clientId)];
      form := form + [("access_token", tokens.AccessToken().value)];
      form := form + [("openid", openid)];
      assert form == UserInformationForm(options, tokens.AccessToken().value, openid);
      var response := backchannel.PostUserInformation(form);
      assert backchannel.sent == sent0 + o.sent;
      assert identity.claims == claims0 + [NameIdentifierClaim(openid, options.claimsIssuer)];
      if !response.success {
        return Failure(UserInformationRequestFailed);
      }
      var payload := ParseObject(parse, response.body);
      if payload.None? {
        return Failure(MalformedUserInformation);
      }
      var status := ValueAsInt32(payload.value, "ret");
      if status.Failure? {
        return Failure(RetNotConvertible);
      }
      if status.value != 0 {
        return Failure(NonZeroRet(status.value));
      }
      identity.AddClaims(hook(payload.value));
      r := Success(Ticket(identity.claims));
    }
  }
}
