/** The OAuth handlers: the authorize URL of the login endpoint, the
    authorization-code callback that establishes a user, and the profile
    endpoint. The provider calls are oracles; the user store is the class of
    UserRepository. */
module AuthHandler {
  import opened Common
  import opened Provider
  import opened Http
  import opened UserRepository
  import SummaryHandler

  // ---------------------------------------------------------------------
  // Login: the authorize URL

  const AuthorizeEndpoint := "https://discord.com/api/oauth2/authorize"

  /** GET /login: the authorize URL spliced from CLIENT_ID, REDIRECT_URI and
      SCOPE with no escaping and no state parameter. The URL is the
      endpoint, '?', and the query. */
  function Login(clientId: string, redirectUri: string, scope: string): (r: Response)
    ensures r.status == StatusOK && r.body.LoginUrl?
    ensures var n := |AuthorizeEndpoint| + 1;
            && |r.body.url| >= n && r.body.url[..n] == AuthorizeEndpoint + "?"
            && r.body.url[n..] == AuthorizeQuery(clientId, redirectUri, scope)
  {
    var url := "https://discord.com/api/oauth2/authorize?client_id=" + clientId + "&redirect_uri=" + redirectUri
               + "&response_type=code&scope=" + scope;
    assert "https://discord.com/api/oauth2/authorize?client_id=" == AuthorizeEndpoint + "?" + "client_id=";
    assert url == AuthorizeEndpoint + "?" + AuthorizeQuery(clientId, redirectUri, scope);
    Response(StatusOK, LoginUrl(url))
  }

  /** The query of the login URL: four parameters joined by '&', the
      inputs spliced in verbatim. */
  function AuthorizeQuery(clientId: string, redirectUri: string, scope: string): (q: string)
    ensures q == ("client_id=" + clientId) + ['&'] + (("redirect_uri=" + redirectUri) + ['&']
                 + ("response_type=code" + ['&'] + ("scope=" + scope)))
  {
    assert "&response_type=code&scope=" == ['&'] + ("response_type=code" + (['&'] + "scope="));
    assert "&redirect_uri=" == ['&'] + "redirect_uri=";
    assert "&redirect_uri=" + redirectUri == ['&'] + ("redirect_uri=" + redirectUri);
    assert "&response_type=code&scope=" + scope == ['&'] + ("response_type=code" + (['&'] + ("scope=" + scope)));
    "client_id=" + clientId + "&redirect_uri=" + redirectUri + "&response_type=code&scope=" + scope
  }

  /** The pieces of `s` between occurrences of `sep`, as a query string is
      cut into parameters at '&'. */
  function Split(s: string, sep: char): (parts: seq<string>)
    ensures |parts| == Occurrences(s, sep) + 1
  {
    if s == [] then [""]
    else
      var rest := Split(s[1..], sep);
      if s[0] == sep then [""] + rest
      else [[s[0]] + rest[0]] + rest[1..]
  }

  function Occurrences(s: string, c: char): nat
  {
    if s == [] then 0 else (if s[0] == c then 1 else 0) + Occurrences(s[1..], c)
  }

  lemma {:induction false} OccurrencesConcat(a: string, b: string, c: char)
    ensures Occurrences(a + b, c) == Occurrences(a, c) + Occurrences(b, c)
    decreases |a|
  {
    if a == [] {
      assert a + b == b;
    } else {
      assert (a + b)[1..] == a[1..] + b;
      OccurrencesConcat(a[1..], b, c);
    }
  }

  lemma {:induction false} OccurrencesAbsent(s: string, c: char)
    requires c !in s
    ensures Occurrences(s, c) == 0
    decreases |s|
  {
    if s != [] {
      assert s == [s[0]] + s[1..];
      OccurrencesAbsent(s[1..], c);
    }
  }

  lemma {:induction false} SplitAbsent(s: string, sep: char)
    requires sep !in s
    ensures Split(s, sep) == [s]
    decreases |s|
  {
    if s != [] {
      assert s == [s[0]] + s[1..];
      SplitAbsent(s[1..], sep);
      assert [s[0]] + s[1..] == s;
    }
  }

  /** Cutting at the first separator. */
  lemma {:induction false} SplitAtFirst(a: string, b: string, sep: char)
    requires sep !in a
    ensures Split(a + [sep] + b, sep) == [a] + Split(b, sep)
    decreases |a|
  {
    if a == [] {
      assert (a + [sep] + b)[1..] == b;
    } else {
      assert (a + [sep] + b)[1..] == a[1..] + [sep] + b;
      assert a == [a[0]] + a[1..];
      SplitAtFirst(a[1..], b, sep);
      assert [a[0]] + a[1..] == a;
    }
  }

  /** Four '&'-free pieces joined by '&' split back into themselves. */
  lemma SplitFour(p1: string, p2: string, p3: string, p4: string)
    requires '&' !in p1 && '&' !in p2 && '&' !in p3 && '&' !in p4
    ensures Split(p1 + ['&'] + (p2 + ['&'] + (p3 + ['&'] + p4)), '&') == [p1, p2, p3, p4]
  {
    SplitAtFirst(p1, p2 + ['&'] + (p3 + ['&'] + p4), '&');
    SplitAtFirst(p2, p3 + ['&'] + p4, '&');
    SplitAtFirst(p3, p4, '&');
    SplitAbsent(p4, '&');
  }

  /** When no input contains '&', the query has exactly the four
      parameters client_id, redirect_uri, response_type=code and scope,
      carrying the inputs verbatim; there is no state parameter. */
  lemma AuthorizeUrlParameters(clientId: string, redirectUri: string, scope: string)
    requires '&' !in clientId && '&' !in redirectUri && '&' !in scope
    ensures Split(AuthorizeQuery(clientId, redirectUri, scope), '&')
            == ["client_id=" + clientId, "redirect_uri=" + redirectUri, "response_type=code", "scope=" + scope]
  {
    var p1, p2, p3, p4 := "client_id=" + clientId, "redirect_uri=" + redirectUri, "response_type=code", "scope=" + scope;
    assert '&' !in p1 && '&' !in p2 && '&' !in p3 && '&' !in p4;
    SplitFour(p1, p2, p3, p4);
  }

  /** Nothing is escaped: every '&' in an input adds a query parameter. */
  lemma AuthorizeUrlParameterCount(clientId: string, redirectUri: string, scope: string)
    ensures |Split(AuthorizeQuery(clientId, redirectUri, scope), '&')|
            == 4 + Occurrences(clientId, '&') + Occurrences(redirectUri, '&') + Occurrences(scope, '&')
  {
    var p1, p2, p3, p4 := "client_id=", "redirect_uri=", "response_type=code", "scope=";
    var q := AuthorizeQuery(clientId, redirectUri, scope);
    assert q == (p1 + clientId) + ['&'] + ((p2 + redirectUri) + ['&'] + (p3 + ['&'] + (p4 + scope)));
    assert '&' !in p1 && '&' !in p2 && '&' !in p3 && '&' !in p4;
    OccurrencesAbsent(p3, '&');
    OccurrencesAfterFreePrefix(p1, clientId);
    OccurrencesAfterFreePrefix(p2, redirectUri);
    OccurrencesAfterFreePrefix(p4, scope);
    OccurrencesJoinFour(p1 + clientId, p2 + redirectUri, p3, p4 + scope);
  }

  lemma OccurrencesAfterFreePrefix(prefix: string, s: string)
    requires '&' !in prefix
    ensures Occurrences(prefix + s, '&') == Occurrences(s, '&')
  {
    OccurrencesAbsent(prefix, '&');
    OccurrencesConcat(prefix, s, '&');
  }

  lemma OccurrencesJoinFour(a: string, b: string, c: string, d: string)
    ensures Occurrences(a + ['&'] + (b + ['&'] + (c + ['&'] + d)), '&')
            == 3 + Occurrences(a, '&') + Occurrences(b, '&') + Occurrences(c, '&') + Occurrences(d, '&')
  {
    OccurrencesAmpersand(c, d);
    OccurrencesAmpersand(b, c + ['&'] + d);
    OccurrencesAmpersand(a, b + ['&'] + (c + ['&'] + d));
  }

  lemma OccurrencesAmpersand(a: string, b: string)
    ensures Occurrences(a + ['&'] + b, '&') == Occurrences(a, '&') + 1 + Occurrences(b, '&')
  {
    OccurrencesConcat(a, ['&'], '&');
    OccurrencesConcat(a + ['&'], b, '&');
  }

  /** For instance a client id "a&state=x" smuggles a state parameter in. */
  lemma AmpersandInClientIdAddsParameter(a: string, b: string, redirectUri: string, scope: string)
    requires '&' !in a && '&' !in b && '&' !in redirectUri && '&' !in scope
    ensures Split(AuthorizeQuery(a + "&" + b, redirectUri, scope), '&')
            == ["client_id=" + a, b, "redirect_uri=" + redirectUri, "response_type=code", "scope=" + scope]
  {
    var p1, p2, p3, p4 := "client_id=" + a, "redirect_uri=" + redirectUri, "response_type=code", "scope=" + scope;
    var rest := p2 + ['&'] + (p3 + ['&'] + p4);
    assert "client_id=" + (a + "&" + b) == p1 + ['&'] + b;
    JoinRegroup(p1, b, rest);
    assert '&' !in p1;
    SplitAtFirst(p1, b + ['&'] + rest, '&');
    assert '&' !in p2 && '&' !in p3 && '&' !in p4;
    SplitFour(b, p2, p3, p4);
  }

  lemma JoinRegroup(x: string, y: string, z: string)
    ensures (x + ['&'] + y) + ['&'] + z == x + ['&'] + (y + ['&'] + z)
  {
  }

  // ---------------------------------------------------------------------
  // Profile

  /** The token Profile forwards: a leading "Bearer " is removed when the
      header is longer than it; any other header goes through unchanged. */
  function StripBearer(authorization: string): (token: string)
    ensures SummaryHandler.BearerToken(authorization).Some? ==> token == SummaryHandler.BearerToken(authorization).value
    ensures SummaryHandler.BearerToken(authorization).None? ==> token == authorization
  {
    if |authorization| > 7 && authorization[..7] == "Bearer " then authorization[7..] else authorization
  }

  datatype ProfileResult = ProfileResult(response: Response, calls: seq<ProviderCall>)

  /** GET /profile. */
  function Profile(authorization: string, fetch: Oracle): (p: ProfileResult)
    ensures authorization == "" ==> p == ProfileResult(Response(StatusUnauthorized, Error("Unauthorized")), [])
    ensures authorization != "" ==> p.calls == [FetchUserInfo(StripBearer(authorization))]
    ensures p.response.status == StatusOK || p.response.status == StatusUnauthorized
    ensures p.response.status == StatusOK <==> authorization != "" && fetch(StripBearer(authorization)).Fetched?
    ensures p.response.status == StatusOK ==> p.response.body == UserInfo(fetch(StripBearer(authorization)).body)
  {
    if authorization == "" then
      ProfileResult(Response(StatusUnauthorized, Error("Unauthorized")), [])
    else
      var token := StripBearer(authorization);
      match fetch(token)
      case Failed(message) => ProfileResult(Response(StatusUnauthorized, Error(message)), [FetchUserInfo(token)])
      case Fetched(info) => ProfileResult(Response(StatusOK, UserInfo(info)), [FetchUserInfo(token)])
  }

  /** Unlike IsAuthenticated, Profile does not refuse a header outside the
      Bearer scheme: it forwards it to the provider as the token. */
  lemma ProfileForwardsMalformedHeaders(fetch: Oracle)
    ensures Profile("Token xyz", fetch).calls == [FetchUserInfo("Token xyz")]
    ensures Profile("Bearer ", fetch).calls == [FetchUserInfo("Bearer ")]
    ensures SummaryHandler.IsAuthenticated("Token xyz", fetch).calls == []
    ensures SummaryHandler.IsAuthenticated("Bearer ", fetch).calls == []
  {
    SummaryHandler.MalformedHeadersRejected(fetch);
    assert "Token xyz"[..7] != "Bearer " by {
      assert "Token xyz"[0] == 'T';
    }
  }

  // ---------------------------------------------------------------------
  // Callback: the authorization-code handshake

  /** Where the chain of checks before the store write ends: a rejection,
      or the tokens, profile and user id to write, with the provider calls
      made either way. */
  datatype HandshakeOutcome =
    | Rejected(response: Response, calls: seq<ProviderCall>)
    | Established(tokens: Payload, profile: Payload, userId: string, calls: seq<ProviderCall>)

  function Handshake(code: string, exchange: Oracle, fetch: Oracle): (h: HandshakeOutcome)
    ensures code == "" ==> h == Rejected(Response(StatusBadRequest, Error("No code provided")), [])
    ensures code != "" && exchange(code).Failed? ==>
              h == Rejected(Response(StatusInternalServerError, Error(exchange(code).message)), [ExchangeCode(code)])
    ensures code != "" && exchange(code).Fetched? && RequiredString(exchange(code).body, "access_token").None? ==>
              h == Rejected(Response(StatusInternalServerError, Error("Invalid access token")), [ExchangeCode(code)])
    ensures h.Rejected? && code != "" ==>
              && h.response.status == StatusInternalServerError
              && 1 <= |h.calls| <= 2 && h.calls[0] == ExchangeCode(code)
    ensures h.Rejected? && code != "" && |h.calls| == 2 ==>
              && exchange(code).Fetched?
              && RequiredString(exchange(code).body, "access_token").Some?
              && h.calls[1] == FetchUserInfo(RequiredString(exchange(code).body, "access_token").value)
    ensures h.Established? ==>
              && code != ""
              && exchange(code) == Fetched(h.tokens)
              && RequiredString(h.tokens, "access_token").Some?
              && fetch(RequiredString(h.tokens, "access_token").value) == Fetched(h.profile)
              && RequiredString(h.profile, "id") == Some(h.userId)
              && h.calls == [ExchangeCode(code), FetchUserInfo(RequiredString(h.tokens, "access_token").value)]
    ensures code != "" && exchange(code).Fetched? && RequiredString(exchange(code).body, "access_token").Some? ==>
              var reply := fetch(RequiredString(exchange(code).body, "access_token").value);
              reply.Fetched? && RequiredString(reply.body, "id").Some? ==> h.Established?
  {
    if code == "" then
      Rejected(Response(StatusBadRequest, Error("No code provided")), [])
    else
      match exchange(code)
      case Failed(message) =>
        Rejected(Response(StatusInternalServerError, Error(message)), [ExchangeCode(code)])
      case Fetched(tokens) =>
        match RequiredString(tokens, "access_token")
        case None =>
          Rejected(Response(StatusInternalServerError, Error("Invalid access token")), [ExchangeCode(code)])
        case Some(accessToken) =>
          var calls := [ExchangeCode(code), FetchUserInfo(accessToken)];
          match fetch(accessToken)
          case Failed(message) => Rejected(Response(StatusInternalServerError, Error(message)), calls)
          case Fetched(profile) =>
            match RequiredString(profile, "id")
            case None => Rejected(Response(StatusInternalServerError, Error("Invalid user ID")), calls)
            case Some(userId) => Established(tokens, profile, userId, calls)
  }

  /** The `$set` of a returning user: the whole token bundle and the
      profile's username and discriminator, whatever JSON they hold. */
  function LoginUpdate(tokens: Payload, profile: Payload): (upd: UserUpdate)
    ensures forall u :: && Apply(u, upd).token == tokens
                        && Apply(u, upd).username == Field(profile, "username")
                        && Apply(u, upd).discriminator == Field(profile, "discriminator")
                        && Apply(u, upd).id == u.id && Apply(u, upd).uuid == u.uuid
                        && Apply(u, upd).summaries == u.summaries
  {
    UserUpdate(Some(tokens), Some(Field(profile, "username")), Some(Field(profile, "discriminator")))
  }

  /** The document of a first login; None when username or discriminator
      is not a string, where the type assertions panic. */
  function NewLoginUser(userId: string, uuid: string, tokens: Payload, profile: Payload): (u: Option<User>)
    ensures u.Some? <==> Field(profile, "username").JString? && Field(profile, "discriminator").JString?
    ensures u.Some? ==> && u.value.id == userId && u.value.uuid == uuid && u.value.token == tokens
                        && u.value.username == Field(profile, "username")
                        && u.value.discriminator == Field(profile, "discriminator")
                        && u.value.summaries == []
  {
    match (Field(profile, "username"), Field(profile, "discriminator"))
    case (JString(name), JString(tag)) => Some(User(userId, uuid, tokens, JString(name), JString(tag), []))
    case _ => None
  }

  /** The users collection after a successful callback whose lookup did not
      fail: the returning user is updated in place, a new user appended.
      None when the new-user path panics. */
  function Upserted(users: seq<User>, userId: string, uuid: string, tokens: Payload, profile: Payload)
    : (r: Option<seq<User>>)
    ensures r.None? <==> !HasId(users, userId) && NewLoginUser(userId, uuid, tokens, profile).None?
  {
    if FirstWithId(users, userId).Some? then Some(SetFields(users, userId, LoginUpdate(tokens, profile)))
    else
      match NewLoginUser(userId, uuid, tokens, profile)
      case None => None
      case Some(u) => Some(users + [u])
  }

  lemma LookupSetFields(users: seq<User>, id: string, upd: UserUpdate)
    requires HasId(users, id)
    ensures Lookup(SetFields(users, id, upd), id) == Some(Apply(Lookup(users, id).value, upd))
  {
    var r := SetFields(users, id, upd);
    var i := FirstWithId(users, id).value;
    assert IsFirstWithId(r, id, i);
    var j :| IsFirstWithId(r, id, j) && Lookup(r, id).value == r[j];
    FirstIsUnique(r, id, i, j);
    var i' :| IsFirstWithId(users, id, i') && Lookup(users, id).value == users[i'];
    FirstIsUnique(users, id, i, i');
  }

  lemma LookupAppendNew(users: seq<User>, u: User)
    requires !HasId(users, u.id)
    ensures Lookup(users + [u], u.id) == Some(u)
  {
    var r := users + [u];
    assert IsFirstWithId(r, u.id, |users|);
    var j :| IsFirstWithId(r, u.id, j) && Lookup(r, u.id).value == r[j];
    FirstIsUnique(r, u.id, |users|, j);
  }

  /** What one successful login writes: the user with that id carries the
      new tokens and profile fields and keeps the uuid it had (a new user
      gets the fresh one); no one else changes and no id gains a second
      document. */
  lemma UpsertOutcome(users: seq<User>, userId: string, uuid: string, tokens: Payload, profile: Payload)
    requires Upserted(users, userId, uuid, tokens, profile).Some?
    ensures var r := Upserted(users, userId, uuid, tokens, profile).value;
            && Lookup(r, userId).Some?
            && Lookup(r, userId).value.uuid == (if HasId(users, userId) then Lookup(users, userId).value.uuid else uuid)
            && Lookup(r, userId).value.token == tokens
            && Lookup(r, userId).value.username == Field(profile, "username")
            && Lookup(r, userId).value.discriminator == Field(profile, "discriminator")
            && CountId(r, userId) == (if HasId(users, userId) then CountId(users, userId) else 1)
            && |r| == |users| + (if HasId(users, userId) then 0 else 1)
            && forall k :: 0 <= k < |users| && users[k].id != userId ==> r[k] == users[k]
  {
    var r := Upserted(users, userId, uuid, tokens, profile).value;
    if HasId(users, userId) {
      LookupSetFields(users, userId, LoginUpdate(tokens, profile));
      SetFieldsKeepsCounts(users, userId, LoginUpdate(tokens, profile), userId);
    } else {
      var u := NewLoginUser(userId, uuid, tokens, profile).value;
      LookupAppendNew(users, u);
      CountIdAppend(users, u, userId);
      CountIdPositive(users, userId);
    }
  }

  /** Two successful logins of the same provider id, the first of which
      found at most one document: one document remains, with the uuid of
      the first login and the tokens and profile fields of the second. */
  lemma SecondLoginKeepsOneRecord(users: seq<User>, userId: string,
                                  uuid1: string, tokens1: Payload, profile1: Payload,
                                  uuid2: string, tokens2: Payload, profile2: Payload)
    requires CountId(users, userId) <= 1
    requires Upserted(users, userId, uuid1, tokens1, profile1).Some?
    requires Upserted(Upserted(users, userId, uuid1, tokens1, profile1).value, userId, uuid2, tokens2, profile2).Some?
    ensures var once := Upserted(users, userId, uuid1, tokens1, profile1).value;
            var twice := Upserted(once, userId, uuid2, tokens2, profile2).value;
            && CountId(twice, userId) == 1
            && Lookup(once, userId).Some?
            && Lookup(twice, userId).Some?
            && Lookup(twice, userId).value.uuid == Lookup(once, userId).value.uuid
            && Lookup(once, userId).value.uuid == (if HasId(users, userId) then Lookup(users, userId).value.uuid else uuid1)
            && Lookup(twice, userId).value.token == tokens2
            && Lookup(twice, userId).value.username == Field(profile2, "username")
            && Lookup(twice, userId).value.discriminator == Field(profile2, "discriminator")
  {
    var once := Upserted(users, userId, uuid1, tokens1, profile1).value;
    UpsertOutcome(users, userId, uuid1, tokens1, profile1);
    UpsertOutcome(once, userId, uuid2, tokens2, profile2);
    CountIdPositive(users, userId);
  }

  /** A successful login keeps ids unique. */
  lemma UpsertKeepsIdsUnique(users: seq<User>, userId: string, uuid: string, tokens: Payload, profile: Payload)
    requires UniqueIds(users)
    requires Upserted(users, userId, uuid, tokens, profile).Some?
    ensures UniqueIds(Upserted(users, userId, uuid, tokens, profile).value)
  {
  }

  /** With the repository's index set-up left out, uniqueness rests on the
      lookup: when a failed lookup sends a returning user down the create
      path, the insert adds a second document. */
  lemma BlindInsertDuplicates(users: seq<User>, u: User)
    requires HasId(users, u.id)
    ensures CountId(users + [u], u.id) >= 2
    ensures !UniqueIds(users + [u])
  {
    CountIdAppend(users, u, u.id);
    CountIdPositive(users, u.id);
    var k :| 0 <= k < |users| && users[k].id == u.id;
    assert (users + [u])[k].id == (users + [u])[|users|].id;
  }

  class AuthHandler {
    const repo: UserStore

    constructor (repo: UserStore)
      ensures this.repo == repo
    {
      this.repo := repo;
    }

    /** GET /callback?code=…. `freshUuid` is the uuid.New() drawn before the
        lookup; `lookupFails` and `writeFails` are driver errors of the
        lookup and of the write. A lookup error is discarded: the handler
        then takes the new-user path. */
    method Callback(code: string, exchange: Oracle, fetch: Oracle, freshUuid: string,
                    lookupFails: bool, writeFails: bool)
      returns (response: Response, calls: seq<ProviderCall>)
      modifies repo
      ensures calls == Handshake(code, exchange, fetch).calls
      ensures Handshake(code, exchange, fetch).Rejected? ==>
                response == Handshake(code, exchange, fetch).response && unchanged(repo)
      ensures Handshake(code, exchange, fetch).Established? ==>
                var h := Handshake(code, exchange, fetch);
                var found := !lookupFails && HasId(old(repo.users), h.userId);
                var update := LoginUpdate(h.tokens, h.profile);
                var newUser := NewLoginUser(h.userId, freshUuid, h.tokens, h.profile);
                && (found ==>
                      && repo.history == old(repo.history) + [FindUser(h.userId), SetUser(h.userId, update)]
                      && repo.users == (if writeFails then old(repo.users) else SetFields(old(repo.users), h.userId, update)))
                && (!found && newUser.None? ==>
                      && repo.history == old(repo.history) + [FindUser(h.userId)]
                      && repo.users == old(repo.users)
                      && response == PanicResponse)
                && (!found && newUser.Some? ==>
                      && repo.history == old(repo.history) + [FindUser(h.userId), InsertUser(newUser.value)]
                      && repo.users == (if writeFails then old(repo.users) else old(repo.users) + [newUser.value]))
                && (found || newUser.Some? ==>
                      response == (if writeFails then Response(StatusInternalServerError, StoreFault)
                                   else Response(StatusOK, Text("Successfully Authenticated"))))
      ensures response.status == StatusOK ==>
                var h := Handshake(code, exchange, fetch);
                && h.Established?
                && (!lookupFails ==> Upserted(old(repo.users), h.userId, freshUuid, h.tokens, h.profile) == Some(repo.users))
                && (lookupFails ==>
                      var newUser := NewLoginUser(h.userId, freshUuid, h.tokens, h.profile);
                      newUser.Some? && repo.users == old(repo.users) + [newUser.value])
      ensures response.status != StatusOK ==> repo.users == old(repo.users)
    {
      var h := Handshake(code, exchange, fetch);
      calls := h.calls;
      if h.Rejected? {
        return h.response, calls;
      }
      var existing := repo.FindUserByID(h.userId, lookupFails);
      var err: Option<StoreError>;
      if existing.Ok? {
        err := repo.UpdateUser(h.userId, LoginUpdate(h.tokens, h.profile), writeFails);
      } else {
        var newUser := NewLoginUser(h.userId, freshUuid, h.tokens, h.profile);
        if newUser.None? {
          return PanicResponse, calls;
        }
        err := repo.CreateUser(newUser.value, writeFails);
      }
      if err.Some? {
        return Response(StatusInternalServerError, StoreFault), calls;
      }
      response := Response(StatusOK, Text("Successfully Authenticated"));
    }
  }
}
