/** What the QQ handler's steps guarantee, stated over the functions that specify them. */
module QQProperties {
  import opened Wrappers
  import opened Text
  import opened Json
  import opened QQHandler

  // ---------------------------------------------------------------- the padding stripper

  /** A padded body is cut to exactly the text from its first `{` to its last `}`. */
  lemma TrimPaddingCutsToBraces(body: string, first: nat, last: nat)
    requires 0 < first < last < |body|
    requires body[first] == '{' && Absent(body, '{', 0, first)
    requires body[last] == '}' && Absent(body, '}', last + 1, |body|)
    ensures TrimPadding(body) == Success(body[first..last + 1])
    ensures body[first..last + 1][0] == '{' && body[first..last + 1][last - first] == '}'
  {
    IndexOfIs(body, '{', first);
    LastIndexOfIs(body, '}', last);
  }

  /** A body without `{`, or one that starts with `{`, is kept whole, trailing text included. */
  lemma TrimPaddingKeepsUnpadded(body: string)
    requires Absent(body, '{', 0, |body|) || (|body| > 0 && body[0] == '{')
    ensures TrimPadding(body) == Success(body)
  {
    if !Absent(body, '{', 0, |body|) {
      IndexOfIs(body, '{', 0);
    }
  }

  /** With its first `{` past the start and no `}` at or after it, a body is an error, or the empty
      text when a `}` sits just before that `{`. */
  lemma TrimPaddingWithoutClosingBrace(body: string, first: nat)
    requires 0 < first < |body|
    requires body[first] == '{' && Absent(body, '{', 0, first)
    requires Absent(body, '}', first, |body|)
    ensures TrimPadding(body) == if body[first - 1] == '}' then Success("") else Failure(PaddingOutOfRange)
  {
    IndexOfIs(body, '{', first);
    var last := LastIndexOf(body, '}');
    assert last < first;
    if body[first - 1] == '}' {
      LastIndexOfIs(body, '}', first - 1);
      assert body[first..first] == "";
    } else {
      assert last != first - 1;
    }
  }

  /** Trimming a trimmed body changes nothing. */
  lemma TrimPaddingIdempotent(body: string)
    requires TrimPadding(body).Success?
    ensures TrimPadding(TrimPadding(body).value) == TrimPadding(body)
  {
    var r := TrimPadding(body).value;
    var index := IndexOf(body, '{');
    if index > 0 {
      if r == "" {
        assert Absent(r, '{', 0, 0);
      } else {
        assert r[0] == body[index] == '{';
        TrimPaddingKeepsUnpadded(r);
      }
    }
  }

  /** Whenever a padded body has no `}` after its first `{`, the identifier lookup throws. */
  lemma IdentifierFailsWithoutClosingBrace(tokens: TokenResponse, response: HttpResponse, parse: Parser, first: nat)
    requires tokens.AccessToken().Some? && response.success
    requires 0 < first < |response.body|
    requires response.body[first] == '{' && Absent(response.body, '{', 0, first)
    requires Absent(response.body, '}', first, |response.body|)
    ensures IdentifierOutcome(tokens, response, parse).result.Failure?
  {
    TrimPaddingWithoutClosingBrace(response.body, first);
  }

  /** The identifier is exactly the `openid` text of the trimmed, parsed identification body. */
  lemma IdentifierIsOpenId(tokens: TokenResponse, response: HttpResponse, parse: Parser, p: Payload, s: string)
    requires tokens.AccessToken().Some? && response.success
    requires TrimPadding(response.body).Success?
    requires ParseObject(parse, TrimPadding(response.body).value) == Some(p)
    requires "openid" in p && p["openid"] == JString(s)
    ensures IdentifierOutcome(tokens, response, parse).result == Success(Some(s))
  {
  }

  /** When the identification body's `openid` is the text `s`, a ticket's NameIdentifier claim is
      exactly `s`. */
  lemma TicketSubjectIsOpenId(options: QQOptions, claims: seq<Claim>, tokens: TokenResponse,
                              identification: HttpResponse, userInformation: HttpResponse,
                              parse: Parser, hook: ClaimHook, p: Payload, s: string)
    requires TicketOutcome(options, claims, tokens, identification, userInformation, parse, hook).result.Success?
    requires TrimPadding(identification.body).Success?
    requires ParseObject(parse, TrimPadding(identification.body).value) == Some(p)
    requires "openid" in p && p["openid"] == JString(s)
    ensures var o := TicketOutcome(options, claims, tokens, identification, userInformation, parse, hook);
            |o.claims| > |claims| && o.claims[|claims|].claimType == NameIdentifierType && o.claims[|claims|].value == s
  {
    TicketIffAllStepsSucceed(options, claims, tokens, identification, userInformation, parse, hook);
    IdentifierIsOpenId(tokens, identification, parse, p, s);
    TicketClaims(options, claims, tokens, identification, userInformation, parse, hook);
  }

  // ---------------------------------------------------------------- ticket creation

  /** A null or empty identifier throws before any claim is added and before the user information
      is requested: only the identifier request has gone out. */
  lemma MissingIdentifierStopsEarly(options: QQOptions, claims: seq<Claim>, tokens: TokenResponse,
                                    identification: HttpResponse, userInformation: HttpResponse,
                                    parse: Parser, hook: ClaimHook)
    requires IdentifierOutcome(tokens, identification, parse).result in {Success(None), Success(Some(""))}
    ensures var o := TicketOutcome(options, claims, tokens, identification, userInformation, parse, hook);
            && o.result == Failure(MissingIdentifier)
            && o.claims == claims
            && o.sent == [IdentifierRequest(tokens.AccessToken().value)]
  {
  }

  /** The user information is requested only with a non-empty identifier, with exactly the
      consumer key, the access token and that identifier, after the NameIdentifier claim. */
  lemma UserInformationRequestedOnlyWithIdentifier(options: QQOptions, claims: seq<Claim>, tokens: TokenResponse,
                                                   identification: HttpResponse, userInformation: HttpResponse,
                                                   parse: Parser, hook: ClaimHook, form: Form)
    requires UserInformationRequest(form) in
             TicketOutcome(options, claims, tokens, identification, userInformation, parse, hook).sent
    ensures var lookup := IdentifierOutcome(tokens, identification, parse);
            var o := TicketOutcome(options, claims, tokens, identification, userInformation, parse, hook);
            && lookup.result.Success? && !IsNullOrEmpty(lookup.result.value)
            && o.sent == [IdentifierRequest(tokens.AccessToken().value), UserInformationRequest(form)]
            && form == UserInformationForm(options, tokens.AccessToken().value, lookup.result.value.value)
            && |o.claims| > |claims| && o.claims[..|claims|] == claims
            && o.claims[|claims|] == NameIdentifierClaim(lookup.result.value.value, options.claimsIssuer)
  {
    var lookup := IdentifierOutcome(tokens, identification, parse);
    var o := TicketOutcome(options, claims, tokens, identification, userInformation, parse, hook);
    assert o.claims[..|claims|] == claims by {
      assert o.claims[..|claims| + 1] == claims + [NameIdentifierClaim(lookup.result.value.value, options.claimsIssuer)];
    }
  }

  /** A ticket is produced exactly when every response succeeds: an access token is present, both
      requests return success, both bodies parse, the identifier converts to a non-empty string and
      `ret` converts to 0. */
  lemma TicketIffAllStepsSucceed(options: QQOptions, claims: seq<Claim>, tokens: TokenResponse,
                                 identification: HttpResponse, userInformation: HttpResponse,
                                 parse: Parser, hook: ClaimHook)
    ensures TicketOutcome(options, claims, tokens, identification, userInformation, parse, hook).result.Success?
            <==>
            && tokens.AccessToken().Some?
            && identification.success
            && TrimPadding(identification.body).Success?
            && ParseObject(parse, TrimPadding(identification.body).value).Some?
            && ValueAsString(ParseObject(parse, TrimPadding(identification.body).value).value, "openid")
                 .Success?
            && !IsNullOrEmpty(ValueAsString(ParseObject(parse, TrimPadding(identification.body).value).value, "openid")
                 .value)
            && userInformation.success
            && ParseObject(parse, userInformation.body).Some?
            && ValueAsInt32(ParseObject(parse, userInformation.body).value, "ret") == Success(0)
  {
  }

  /** On success the ticket holds the identity's earlier claims, then the NameIdentifier claim whose
      value is exactly the identifier, then what the claim hook adds for the user information. */
  lemma TicketClaims(options: QQOptions, claims: seq<Claim>, tokens: TokenResponse,
                     identification: HttpResponse, userInformation: HttpResponse,
                     parse: Parser, hook: ClaimHook)
    requires TicketOutcome(options, claims, tokens, identification, userInformation, parse, hook).result.Success?
    ensures var o := TicketOutcome(options, claims, tokens, identification, userInformation, parse, hook);
            var identifier := IdentifierOutcome(tokens, identification, parse).result.value.value;
            var payload := ParseObject(parse, userInformation.body).value;
            && o.result.value.claims == o.claims
            && o.claims == claims + [NameIdentifierClaim(identifier, options.claimsIssuer)] + hook(payload)
            && o.claims[|claims|].claimType == NameIdentifierType
            && o.claims[|claims|].value == identifier != ""
  {
    TicketIffAllStepsSucceed(options, claims, tokens, identification, userInformation, parse, hook);
  }

  /** A failure after the identifier was found still leaves the NameIdentifier claim on the
      identity, since it is added in place before the user information is requested. */
  lemma LaterFailureKeepsNameIdentifier(options: QQOptions, claims: seq<Claim>, tokens: TokenResponse,
                                        identification: HttpResponse, userInformation: HttpResponse,
                                        parse: Parser, hook: ClaimHook)
    requires IdentifierOutcome(tokens, identification, parse).result.Success?
    requires !IsNullOrEmpty(IdentifierOutcome(tokens, identification, parse).result.value)
    requires TicketOutcome(options, claims, tokens, identification, userInformation, parse, hook).result.Failure?
    ensures TicketOutcome(options, claims, tokens, identification, userInformation, parse, hook).claims
            == claims + [NameIdentifierClaim(IdentifierOutcome(tokens, identification, parse).result.value.value,
                                             options.claimsIssuer)]
  {
  }

  /** A user-information payload without `ret` counts as `ret` 0, and a nonzero `ret` throws. */
  lemma RetDecides(options: QQOptions, claims: seq<Claim>, tokens: TokenResponse,
                   identification: HttpResponse, userInformation: HttpResponse,
                   parse: Parser, hook: ClaimHook)
    requires IdentifierOutcome(tokens, identification, parse).result.Success?
    requires !IsNullOrEmpty(IdentifierOutcome(tokens, identification, parse).result.value)
    requires userInformation.success && ParseObject(parse, userInformation.body).Some?
    ensures var payload := ParseObject(parse, userInformation.body).value;
            var o := TicketOutcome(options, claims, tokens, identification, userInformation, parse, hook);
            && ("ret" !in payload ==> o.result.Success?)
            && (forall n :: ValueAsInt32(payload, "ret") == Success(n) && n != 0 ==> o.result == Failure(NonZeroRet(n)))
  {
  }

  // ---------------------------------------------------------------- the forms

  function Keys(form: Form): (r: seq<string>)
    ensures |r| == |form| && forall k :: 0 <= k < |form| ==> r[k] == form[k].0
  {
    if |form| == 0 then [] else [form[0].0] + Keys(form[1..])
  }

  function Lookup(form: Form, key: string): Option<string>
  {
    if |form| == 0 then None else if form[0].0 == key then Some(form[0].1) else Lookup(form[1..], key)
  }

  /** The token request carries exactly the five fields, with grant_type fixed. */
  lemma ExchangeFormFields(options: QQOptions, code: string, redirectUri: string)
    ensures var form := ExchangeForm(options, code, redirectUri);
            && Keys(form) == ["client_id", "client_secret", "redirect_uri", "code", "grant_type"]
            && Lookup(form, "client_id") == Some(options.clientId)
            && Lookup(form, "client_secret") == Some(options.clientSecret)
            && Lookup(form, "redirect_uri") == Some(redirectUri)
            && Lookup(form, "code") == Some(code)
            && Lookup(form, "grant_type") == Some("authorization_code")
  {
    var form := ExchangeForm(options, code, redirectUri);
    assert Lookup(form, "redirect_uri") == Lookup(form[2..], "redirect_uri");
    assert Lookup(form, "code") == Lookup(form[2..], "code") == Lookup(form[3..], "code");
    assert Lookup(form, "grant_type") == Lookup(form[2..], "grant_type") == Lookup(form[4..], "grant_type");
  }

  /** The user-information request carries exactly the consumer key, the token and the identifier. */
  lemma UserInformationFormFields(options: QQOptions, accessToken: string, identifier: string)
    ensures var form := UserInformationForm(options, accessToken, identifier);
            && Keys(form) == ["oauth_consumer_key", "access_token", "openid"]
            && Lookup(form, "oauth_consumer_key") == Some(options.clientId)
            && Lookup(form, "access_token") == Some(accessToken)
            && Lookup(form, "openid") == Some(identifier)
  {
    var form := UserInformationForm(options, accessToken, identifier);
    assert Lookup(form, "openid") == Lookup(form[1..], "openid") == Lookup(form[2..], "openid");
  }

  // ---------------------------------------------------------------- the whole login

  /** A login yields a ticket only if the token exchange succeeded too, and then exactly the
      three requests went out in order. */
  lemma LoginTicketOnlyIfAllSucceed(options: QQOptions, code: string, redirectUri: string,
                                    token: TokenEndpointResponse, identification: HttpResponse,
                                    userInformation: HttpResponse, parse: Parser, hook: ClaimHook)
    requires LoginOutcome(options, code, redirectUri, token, identification, userInformation, parse, hook).result.Success?
    ensures token.success && "access_token" in token.fields
    ensures identification.success && userInformation.success
    ensures var o := LoginOutcome(options, code, redirectUri, token, identification, userInformation, parse, hook);
            var identifier := IdentifierOutcome(TokenResponse(token.fields), identification, parse).result.value.value;
            o.sent == [TokenRequest(ExchangeForm(options, code, redirectUri)),
                       IdentifierRequest(token.fields["access_token"]),
                       UserInformationRequest(UserInformationForm(options, token.fields["access_token"], identifier))]
  {
    var tokens := TokenResponse(token.fields);
    var o := TicketOutcome(options, [], tokens, identification, userInformation, parse, hook);
    TicketIffAllStepsSucceed(options, [], tokens, identification, userInformation, parse, hook);
    var lookup := IdentifierOutcome(tokens, identification, parse);
    UserInformationRequestedOnlyWithIdentifier(options, [], tokens, identification, userInformation, parse, hook,
      UserInformationForm(options, tokens.AccessToken().value, lookup.result.value.value));
  }

  /** A failed token exchange ends the login with only the token request sent. */
  lemma LoginStopsOnTokenFailure(options: QQOptions, code: string, redirectUri: string,
                                 token: TokenEndpointResponse, identification: HttpResponse,
                                 userInformation: HttpResponse, parse: Parser, hook: ClaimHook)
    requires !token.success
    ensures var o := LoginOutcome(options, code, redirectUri, token, identification, userInformation, parse, hook);
            o == TicketStep([TokenRequest(ExchangeForm(options, code, redirectUri))], [], Failure(TokenRequestFailed))
  {
  }

  // ---------------------------------------------------------------- scope formatting

  /** No scopes format as the empty text. */
  lemma FormatScopeEmpty(options: QQOptions)
    requires options.scope == []
    ensures FormatScope(options) == ""
  {
  }

  /** Splitting the formatted scope on commas gives the scopes back, in order, when there is at
      least one and none contains a comma. */
  lemma FormatScopeRoundTrip(options: QQOptions)
    requires |options.scope| >= 1
    requires forall k :: 0 <= k < |options.scope| ==> Absent(options.scope[k], ',', 0, |options.scope[k]|)
    ensures Split(FormatScope(options), ',') == options.scope
  {
    SplitJoin(options.scope, ',');
  }

  /** Every scope text is the format of some non-empty comma-free scope list: its comma pieces. */
  lemma FormatScopeOnto(options: QQOptions, text: string)
    requires options.scope == Split(text, ',')
    ensures FormatScope(options) == text
  {
    JoinSplit(text, ',');
  }

  /** Different non-empty comma-free scope lists format differently. */
  lemma FormatScopeInjective(a: QQOptions, b: QQOptions)
    requires |a.scope| >= 1 && forall k :: 0 <= k < |a.scope| ==> Absent(a.scope[k], ',', 0, |a.scope[k]|)
    requires |b.scope| >= 1 && forall k :: 0 <= k < |b.scope| ==> Absent(b.scope[k], ',', 0, |b.scope[k]|)
    requires FormatScope(a) == FormatScope(b)
    ensures a.scope == b.scope
  {
    FormatScopeRoundTrip(a);
    FormatScopeRoundTrip(b);
  }
}
