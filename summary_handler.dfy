/** The HTTP handlers over the summary store, and the bearer-token check of
    the is_authenticated endpoint. The acting user of the list, update and
    delete handlers is the caller-supplied `ID` header, and the owner of a
    created summary is the `user_id` of the request body: neither is derived
    from the bearer token. */
module SummaryHandler {
  import opened Common
  import opened Provider
  import opened Http
  import opened SummaryRepository

  /** Request bodies after a successful c.Bind; a failed bind is None. */
  datatype CreateRequest = CreateRequest(content: string, serverId: string, isPrivate: bool, userId: string)
  datatype UpdateRequest = UpdateRequest(summaryId: string, serverId: string, isPrivate: bool, content: string)
  datatype DeleteRequest = DeleteRequest(summaryId: string)

  /** A create request lacks one of content, server_id and user_id;
      is_private has no absent value once bound. */
  predicate MissingCreateField(b: CreateRequest)
    ensures MissingCreateField(b) <==> "" in [b.content, b.serverId, b.userId]
  {
    b.content == "" || b.serverId == "" || b.userId == ""
  }

  /** Content may be empty in an update; summary_id is required but unused. */
  predicate MissingUpdateField(b: UpdateRequest)
    ensures MissingUpdateField(b) <==> "" in [b.summaryId, b.serverId]
    ensures b.content == "" && b.summaryId != "" && b.serverId != "" ==> !MissingUpdateField(b)
  {
    b.summaryId == "" || b.serverId == ""
  }

  const BearerPrefix := "Bearer "

  /** The access token of an Authorization header in the Bearer scheme:
      the header is longer than the seven-character prefix and starts with
      exactly "Bearer "; the token is the rest, never empty. */
  function BearerToken(authorization: string): (token: Option<string>)
    ensures token.Some? <==> |authorization| > |BearerPrefix| && authorization[..|BearerPrefix|] == BearerPrefix
    ensures token.Some? ==> token.value != "" && authorization == BearerPrefix + token.value
  {
    if |authorization| > 7 && authorization[..7] == BearerPrefix then Some(authorization[7..]) else None
  }

  /** The result of IsAuthenticated: the response, the user id it stores in
      the request context (c.Set("userID", …)), and the provider calls made. */
  datatype Authentication = Authentication(response: Response, userId: Option<string>, calls: seq<ProviderCall>)

  function IsAuthenticated(authorization: string, fetch: Oracle): (a: Authentication)
    ensures a.response.status == StatusOK || a.response.status == StatusUnauthorized
    ensures a.userId.Some? <==> a.response.status == StatusOK
    ensures BearerToken(authorization).None? ==> a.userId == None && a.calls == []
    ensures BearerToken(authorization).Some? ==> a.calls == [FetchUserInfo(BearerToken(authorization).value)]
    ensures a.userId.Some? <==>
              && BearerToken(authorization).Some?
              && fetch(BearerToken(authorization).value).Fetched?
              && RequiredString(fetch(BearerToken(authorization).value).body, "id").Some?
    ensures a.userId.Some? ==>
              && a.userId == RequiredString(fetch(BearerToken(authorization).value).body, "id")
              && a.response.body == Authenticated(a.userId.value, fetch(BearerToken(authorization).value).body)
  {
    if authorization == "" then
      Authentication(Response(StatusUnauthorized, Error("Unauthorized: Missing token")), None, [])
    else
      match BearerToken(authorization)
      case None =>
        Authentication(Response(StatusUnauthorized, Error("Unauthorized: Invalid token format")), None, [])
      case Some(token) =>
        match fetch(token)
        case Failed(_) =>
          Authentication(Response(StatusUnauthorized, Error("Unauthorized: Failed to validate token")), None,
                         [FetchUserInfo(token)])
        case Fetched(info) =>
          match RequiredString(info, "id")
          case None =>
            Authentication(Response(StatusUnauthorized, Error("Unauthorized: Invalid user data")), None,
                           [FetchUserInfo(token)])
          case Some(id) =>
            Authentication(Response(StatusOK, Authenticated(id, info)), Some(id), [FetchUserInfo(token)])
  }

  class SummaryHandler {
    const repo: SummaryStore

    constructor (repo: SummaryStore)
      ensures this.repo == repo
    {
      this.repo := repo;
    }

    /** POST /create-summary. `summaryId` is the fresh uuid.New() and `now`
        the RFC 3339 time of the request. */
    method CreateSummary(body: Option<CreateRequest>, summaryId: string, now: string,
                         lookupFails: bool, insertFails: bool)
      returns (response: Response)
      modifies repo
      ensures repo.userIds == old(repo.userIds)
      ensures body.None? ==>
                response == Response(StatusBadRequest, Error("Invalid request body")) && unchanged(repo)
      ensures body.Some? && MissingCreateField(body.value) ==>
                response == Response(StatusBadRequest, Error("Missing required fields")) && unchanged(repo)
      ensures body.Some? && !MissingCreateField(body.value) ==>
                var b := body.value;
                var record := NewRecord(summaryId, b.userId, b.serverId, b.isPrivate, b.content, now);
                var admitted := !lookupFails && b.userId in old(repo.userIds);
                && repo.history == old(repo.history) + [FindUser(b.userId)]
                                   + (if admitted then [InsertOne(record)] else [])
                && repo.summaries == (if admitted && !insertFails then old(repo.summaries) + [record]
                                      else old(repo.summaries))
                && response == (if lookupFails then Response(StatusInternalServerError, Error("Internal server error"))
                                else if !admitted then Response(StatusUnauthorized, Error("Unauthorized: User not found"))
                                else if insertFails then Response(StatusInternalServerError, Error("Failed to create summary"))
                                else Response(StatusCreated, Created("Summary created successfully", summaryId)))
    {
      if body.None? {
        return Response(StatusBadRequest, Error("Invalid request body"));
      }
      var b := body.value;
      if MissingCreateField(b) {
        return Response(StatusBadRequest, Error("Missing required fields"));
      }
      var found, lookupErr := repo.CheckUserExists(b.userId, lookupFails);
      if lookupErr.Some? {
        return Response(StatusInternalServerError, Error("Internal server error"));
      }
      if !found {
        return Response(StatusUnauthorized, Error("Unauthorized: User not found"));
      }
      var err := repo.AddSummary(summaryId, b.userId, b.serverId, b.isPrivate, b.content, now, insertFails);
      if err.Some? {
        return Response(StatusInternalServerError, Error("Failed to create summary"));
      }
      response := Response(StatusCreated, Created("Summary created successfully", summaryId));
    }

    /** GET /summarizer: the summaries whose user_id is the `ID` header. */
    method GetSummaries(idHeader: string, fails: bool) returns (response: Response)
      modifies repo
      ensures idHeader == "" ==> response == Response(StatusUnauthorized, Error("Unauthorized")) && unchanged(repo)
      ensures idHeader != "" ==>
                && repo.history == old(repo.history) + [Find(ByOwner(idHeader))]
                && repo.summaries == old(repo.summaries) && repo.userIds == old(repo.userIds)
                && response == (if fails then Response(StatusInternalServerError, Error("Failed to retrieve summaries"))
                                else Response(StatusOK, Summaries(Select(repo.summaries, ByOwner(idHeader)))))
      ensures response.status == StatusOK ==>
                response.body.Summaries? && forall k :: 0 <= k < |response.body.items| ==> response.body.items[k].userId == idHeader
    {
      if idHeader == "" {
        return Response(StatusUnauthorized, Error("Unauthorized"));
      }
      var found := repo.GetSummaries(ByOwner(idHeader), fails);
      if found.Err? {
        return Response(StatusInternalServerError, Error("Failed to retrieve summaries"));
      }
      response := Response(StatusOK, Summaries(found.value));
    }

    /** PUT /update-summary. The document is addressed by the `ID` header,
        server_id and is_private; summary_id is checked for presence only. */
    method UpdateSummary(body: Option<UpdateRequest>, idHeader: string, now: string, fails: bool)
      returns (response: Response)
      modifies repo
      ensures repo.userIds == old(repo.userIds)
      ensures body.None? ==>
                response == Response(StatusBadRequest, Error("Invalid request body")) && unchanged(repo)
      ensures body.Some? && idHeader == "" ==>
                response == Response(StatusUnauthorized, Error("Unauthorized")) && unchanged(repo)
      ensures body.Some? && idHeader != "" && MissingUpdateField(body.value) ==>
                response == Response(StatusBadRequest, Error("Missing required fields")) && unchanged(repo)
      ensures body.Some? && idHeader != "" && !MissingUpdateField(body.value) ==>
                var b := body.value;
                var updated := Updated(old(repo.summaries), idHeader, b.serverId, b.isPrivate, b.content, now);
                && repo.history == old(repo.history) + [UpdateOne(idHeader, b.serverId, b.isPrivate, b.content, now)]
                && repo.summaries == (if fails || updated.None? then old(repo.summaries) else updated.value)
                && response == (if fails || updated.None? then Response(StatusInternalServerError, Error("Failed to update summary"))
                                else Response(StatusOK, Message("Summary updated successfully")))
    {
      if body.None? {
        return Response(StatusBadRequest, Error("Invalid request body"));
      }
      var b := body.value;
      if idHeader == "" {
        return Response(StatusUnauthorized, Error("Unauthorized"));
      }
      if MissingUpdateField(b) {
        return Response(StatusBadRequest, Error("Missing required fields"));
      }
      var err := repo.UpdateSummary(idHeader, b.serverId, b.isPrivate, b.content, now, fails);
      if err.Some? {
        return Response(StatusInternalServerError, Error("Failed to update summary"));
      }
      response := Response(StatusOK, Message("Summary updated successfully"));
    }

    /** DELETE /delete-summary. summary_id is not checked for presence; an
        empty one simply matches nothing. */
    method DeleteSummary(body: Option<DeleteRequest>, idHeader: string, fails: bool)
      returns (response: Response)
      modifies repo
      ensures repo.userIds == old(repo.userIds)
      ensures body.None? ==>
                response == Response(StatusBadRequest, Error("Invalid request body")) && unchanged(repo)
      ensures body.Some? && idHeader == "" ==>
                response == Response(StatusUnauthorized, Error("Unauthorized")) && unchanged(repo)
      ensures body.Some? && idHeader != "" ==>
                var deleted := Deleted(old(repo.summaries), idHeader, body.value.summaryId);
                && repo.history == old(repo.history) + [DeleteOne(idHeader, body.value.summaryId)]
                && repo.summaries == (if fails || deleted.None? then old(repo.summaries) else deleted.value)
                && response == (if fails || deleted.None? then Response(StatusInternalServerError, Error("Failed to delete summary"))
                                else Response(StatusOK, Message("Summary deleted successfully")))
    {
      if body.None? {
        return Response(StatusBadRequest, Error("Invalid request body"));
      }
      if idHeader == "" {
        return Response(StatusUnauthorized, Error("Unauthorized"));
      }
      var err := repo.DeleteSummary(idHeader, body.value.summaryId, fails);
      if err.Some? {
        return Response(StatusInternalServerError, Error("Failed to delete summary"));
      }
      response := Response(StatusOK, Message("Summary deleted successfully"));
    }
  }

  // ---------------------------------------------------------------------
  // Properties of the bearer-token check

  /** BearerToken inverts the prefixing of a non-empty token. */
  lemma BearerTokenRoundTrip(token: string)
    requires token != ""
    ensures BearerToken(BearerPrefix + token) == Some(token)
  {
    assert (BearerPrefix + token)[..7] == BearerPrefix;
    assert (BearerPrefix + token)[7..] == token;
  }

  /** The malformed headers "", "Token xyz" and "Bearer " are refused with
      401 before any provider call, whatever the provider would answer. */
  lemma MalformedHeadersRejected(fetch: Oracle)
    ensures IsAuthenticated("", fetch) == Authentication(Response(StatusUnauthorized, Error("Unauthorized: Missing token")), None, [])
    ensures IsAuthenticated("Token xyz", fetch).response.status == StatusUnauthorized
    ensures IsAuthenticated("Token xyz", fetch).calls == []
    ensures IsAuthenticated("Bearer ", fetch).response.status == StatusUnauthorized
    ensures IsAuthenticated("Bearer ", fetch).calls == []
  {
    assert "Token xyz"[..7] != BearerPrefix by {
      assert "Token xyz"[0] == 'T';
    }
  }

  /** A well-formed header whose token the provider accepts with a profile
      id authenticates as that id, after exactly one provider call. */
  lemma AcceptedTokenAuthenticates(token: string, fetch: Oracle, id: string)
    requires token != ""
    requires fetch(token).Fetched? && Field(fetch(token).body, "id") == JString(id) && id != ""
    ensures IsAuthenticated(BearerPrefix + token, fetch).userId == Some(id)
    ensures IsAuthenticated(BearerPrefix + token, fetch).response.status == StatusOK
    ensures IsAuthenticated(BearerPrefix + token, fetch).calls == [FetchUserInfo(token)]
  {
    BearerTokenRoundTrip(token);
  }
}
