/** The standalone summary store: a summaries collection and the users
    collection it consults for existence checks. Each operation is one
    MongoDB call; single-document operations act on the first matching
    document in collection order. */
module SummaryRepository {
  import opened Common

  /** One document of the summaries collection, with the keys AddSummary
      writes. Timestamps are kept as the strings the caller supplies. */
  datatype SummaryRecord = SummaryRecord(
    summaryId: string,
    userId: string,
    serverId: string,
    isPrivate: bool,
    summary: string,
    createdAt: string,
    updatedAt: string)

  /** An equality filter over summary documents; a None field is not
      constrained. */
  datatype SummaryFilter = SummaryFilter(
    summaryId: Option<string>,
    userId: Option<string>,
    serverId: Option<string>,
    isPrivate: Option<bool>)

  predicate Matches(r: SummaryRecord, f: SummaryFilter)
  {
    && (f.summaryId.Some? ==> r.summaryId == f.summaryId.value)
    && (f.userId.Some? ==> r.userId == f.userId.value)
    && (f.serverId.Some? ==> r.serverId == f.serverId.value)
    && (f.isPrivate.Some? ==> r.isPrivate == f.isPrivate.value)
  }

  /** {"user_id": userId}, the filter the list handler builds. */
  function ByOwner(userId: string): (f: SummaryFilter)
    ensures forall r :: Matches(r, f) <==> r.userId == userId
  {
    SummaryFilter(None, Some(userId), None, None)
  }

  /** {"user_id", "server_id", "is_private"}, the filter of UpdateSummary. */
  function UpdateFilter(userId: string, serverId: string, isPrivate: bool): (f: SummaryFilter)
    ensures forall r :: Matches(r, f) <==> r.userId == userId && r.serverId == serverId && r.isPrivate == isPrivate
  {
    SummaryFilter(None, Some(userId), Some(serverId), Some(isPrivate))
  }

  /** {"user_id", "summary_id"}, the filter of DeleteSummary. */
  function DeleteFilter(userId: string, summaryId: string): (f: SummaryFilter)
    ensures forall r :: Matches(r, f) <==> r.userId == userId && r.summaryId == summaryId
  {
    SummaryFilter(Some(summaryId), Some(userId), None, None)
  }

  /** The document AddSummary inserts: updated_at starts equal to created_at. */
  function NewRecord(summaryId: string, userId: string, serverId: string, isPrivate: bool,
                     content: string, createdAt: string): (r: SummaryRecord)
    ensures r.updatedAt == r.createdAt == createdAt
    ensures r.summaryId == summaryId && r.userId == userId && r.summary == content
    ensures r.serverId == serverId && r.isPrivate == isPrivate
  {
    SummaryRecord(summaryId, userId, serverId, isPrivate, content, createdAt, createdAt)
  }

  /** The documents a Find with filter `f` returns, in collection order. */
  function Select(s: seq<SummaryRecord>, f: SummaryFilter): (r: seq<SummaryRecord>)
    ensures |r| <= |s|
    ensures forall k :: 0 <= k < |r| ==> Matches(r[k], f)
  {
    if s == [] then []
    else
      var last := s[|s| - 1];
      Select(s[..|s| - 1], f) + (if Matches(last, f) then [last] else [])
  }

  /** The collection after UpdateOne(filter, {$set: {summary, updated_at}}),
      or None when no document matches the filter. */
  function Updated(s: seq<SummaryRecord>, userId: string, serverId: string, isPrivate: bool,
                   content: string, now: string): (r: Option<seq<SummaryRecord>>)
    ensures r.None? <==> forall k :: 0 <= k < |s| ==> !Matches(s[k], UpdateFilter(userId, serverId, isPrivate))
    ensures r.Some? ==> exists i :: 0 <= i < |s| && Matches(s[i], UpdateFilter(userId, serverId, isPrivate))
                                   && r.value == s[i := s[i].(summary := content, updatedAt := now)]
    ensures r.Some? ==> |r.value| == |s| && forall k :: 0 <= k < |s| && s[k].userId != userId ==> r.value[k] == s[k]
  {
    match FirstIndex(s, (x: SummaryRecord) => Matches(x, UpdateFilter(userId, serverId, isPrivate)))
    case None => None
    case Some(i) => Some(s[i := s[i].(summary := content, updatedAt := now)])
  }

  /** The collection after DeleteOne({"user_id", "summary_id"}), or None
      when no document matches the filter. */
  function Deleted(s: seq<SummaryRecord>, userId: string, summaryId: string): (r: Option<seq<SummaryRecord>>)
    ensures r.None? <==> forall k :: 0 <= k < |s| ==> !Matches(s[k], DeleteFilter(userId, summaryId))
    ensures r.Some? ==> exists i :: 0 <= i < |s| && Matches(s[i], DeleteFilter(userId, summaryId))
                                   && r.value == s[..i] + s[i + 1..]
    ensures r.Some? ==> |r.value| == |s| - 1
  {
    match FirstIndex(s, (x: SummaryRecord) => Matches(x, DeleteFilter(userId, summaryId)))
    case None => None
    case Some(i) => Some(s[..i] + s[i + 1..])
  }

  /** The calls made on the store, in order, whether or not they succeed. */
  datatype SummaryCall =
    | InsertOne(record: SummaryRecord)
    | Find(filter: SummaryFilter)
    | UpdateOne(userId: string, serverId: string, isPrivate: bool, content: string, now: string)
    | DeleteOne(userId: string, summaryId: string)
    | FindUser(userId: string)

  class SummaryStore {
    /** The summaries collection, in insertion order. */
    var summaries: seq<SummaryRecord>
    /** The `id` field of every document of the users collection. */
    var userIds: seq<string>
    ghost var history: seq<SummaryCall>

    constructor (userIds: seq<string>)
      ensures summaries == [] && this.userIds == userIds && history == []
    {
      summaries := [];
      this.userIds := userIds;
      history := [];
    }

    method AddSummary(summaryId: string, userId: string, serverId: string, isPrivate: bool,
                      content: string, createdAt: string, fails: bool)
      returns (err: Option<StoreError>)
      modifies this`summaries, this`history
      ensures history == old(history) + [InsertOne(NewRecord(summaryId, userId, serverId, isPrivate, content, createdAt))]
      ensures err == if fails then Some(Unavailable) else None
      ensures summaries == if fails then old(summaries)
                           else old(summaries) + [NewRecord(summaryId, userId, serverId, isPrivate, content, createdAt)]
    {
      var record := NewRecord(summaryId, userId, serverId, isPrivate, content, createdAt);
      history := history + [InsertOne(record)];
      if fails {
        return Some(Unavailable);
      }
      summaries := summaries + [record];
      err := None;
    }

    /** Find(filter) drained through cursor.All. */
    method GetSummaries(filter: SummaryFilter, fails: bool) returns (found: Result<seq<SummaryRecord>>)
      modifies this`history
      ensures history == old(history) + [Find(filter)]
      ensures found == if fails then Err(Unavailable) else Ok(Select(summaries, filter))
    {
      history := history + [Find(filter)];
      if fails {
        return Err(Unavailable);
      }
      var acc: seq<SummaryRecord> := [];
      var i := 0;
      while i < |summaries|
        invariant 0 <= i <= |summaries|
        invariant acc == Select(summaries[..i], filter)
      {
        assert summaries[..i + 1][..i] == summaries[..i];
        if Matches(summaries[i], filter) {
          acc := acc + [summaries[i]];
        }
        i := i + 1;
      }
      assert summaries[..i] == summaries;
      found := Ok(acc);
    }

    method UpdateSummary(userId: string, serverId: string, isPrivate: bool, content: string,
                         now: string, fails: bool)
      returns (err: Option<StoreError>)
      modifies this`summaries, this`history
      ensures history == old(history) + [UpdateOne(userId, serverId, isPrivate, content, now)]
      ensures fails ==> err == Some(Unavailable) && summaries == old(summaries)
      ensures !fails ==> match Updated(old(summaries), userId, serverId, isPrivate, content, now)
                         case None => err == Some(NoMatch) && summaries == old(summaries)
                         case Some(s) => err == None && summaries == s
    {
      history := history + [UpdateOne(userId, serverId, isPrivate, content, now)];
      if fails {
        return Some(Unavailable);
      }
      match Updated(summaries, userId, serverId, isPrivate, content, now)
      case None =>
        err := Some(NoMatch);
      case Some(s) =>
        summaries := s;
        err := None;
    }

    method DeleteSummary(userId: string, summaryId: string, fails: bool) returns (err: Option<StoreError>)
      modifies this`summaries, this`history
      ensures history == old(history) + [DeleteOne(userId, summaryId)]
      ensures fails ==> err == Some(Unavailable) && summaries == old(summaries)
      ensures !fails ==> match Deleted(old(summaries), userId, summaryId)
                         case None => err == Some(NoMatch) && summaries == old(summaries)
                         case Some(s) => err == None && summaries == s
    {
      history := history + [DeleteOne(userId, summaryId)];
      if fails {
        return Some(Unavailable);
      }
      match Deleted(summaries, userId, summaryId)
      case None =>
        err := Some(NoMatch);
      case Some(s) =>
        summaries := s;
        err := None;
    }

    /** FindOne({"id": userId}) on the users collection: a missing user is
        (false, no error); only a driver failure is an error. */
    method CheckUserExists(userId: string, fails: bool) returns (found: bool, err: Option<StoreError>)
      modifies this`history
      ensures history == old(history) + [FindUser(userId)]
      ensures err == if fails then Some(Unavailable) else None
      ensures found <==> !fails && userId in userIds
    {
      history := history + [FindUser(userId)];
      if fails {
        return false, Some(Unavailable);
      }
      found := userId in userIds;
      err := None;
    }
  }

  // ---------------------------------------------------------------------
  // Properties of the specification functions

  lemma {:induction false} SelectConcat(a: seq<SummaryRecord>, b: seq<SummaryRecord>, f: SummaryFilter)
    ensures Select(a + b, f) == Select(a, f) + Select(b, f)
    decreases |b|
  {
    if b == [] {
      assert a + b == a;
    } else {
      var b' := b[..|b| - 1];
      assert (a + b)[..|a + b| - 1] == a + b';
      SelectConcat(a, b', f);
    }
  }

  /** Find returns every matching document and only matching documents. */
  lemma {:induction false} SelectMembership(s: seq<SummaryRecord>, f: SummaryFilter, x: SummaryRecord)
    ensures x in Select(s, f) <==> x in s && Matches(x, f)
    decreases |s|
  {
    if s != [] {
      var init := s[..|s| - 1];
      assert s == init + [s[|s| - 1]];
      SelectMembership(init, f, x);
    }
  }

  lemma SelectNone(s: seq<SummaryRecord>, f: SummaryFilter)
    requires forall k :: 0 <= k < |s| ==> !Matches(s[k], f)
    ensures Select(s, f) == []
  {
    if Select(s, f) != [] {
      var x := Select(s, f)[0];
      SelectMembership(s, f, x);
    }
  }

  /** Replacing a document that the filter rejects, by one it also rejects,
      does not change what the filter selects. */
  lemma {:induction false} SelectReplaceUnmatched(s: seq<SummaryRecord>, i: nat, x: SummaryRecord, f: SummaryFilter)
    requires i < |s| && !Matches(s[i], f) && !Matches(x, f)
    ensures Select(s[i := x], f) == Select(s, f)
  {
    assert s == s[..i] + [s[i]] + s[i + 1..];
    assert s[i := x] == s[..i] + [x] + s[i + 1..];
    SelectConcat(s[..i] + [s[i]], s[i + 1..], f);
    SelectConcat(s[..i] + [x], s[i + 1..], f);
    SelectConcat(s[..i], [s[i]], f);
    SelectConcat(s[..i], [x], f);
  }

  /** Ownership isolation of UpdateSummary: another owner's listing is the
      same before and after, whichever matching document was picked. */
  lemma UpdateKeepsOtherOwners(s: seq<SummaryRecord>, userId: string, serverId: string, isPrivate: bool,
                               content: string, now: string, other: string)
    requires other != userId
    requires Updated(s, userId, serverId, isPrivate, content, now).Some?
    ensures Select(Updated(s, userId, serverId, isPrivate, content, now).value, ByOwner(other))
         == Select(s, ByOwner(other))
  {
    var i :| 0 <= i < |s| && Matches(s[i], UpdateFilter(userId, serverId, isPrivate))
          && Updated(s, userId, serverId, isPrivate, content, now).value
             == s[i := s[i].(summary := content, updatedAt := now)];
    SelectReplaceUnmatched(s, i, s[i].(summary := content, updatedAt := now), ByOwner(other));
  }

  /** Ownership isolation of DeleteSummary: another owner's listing is the
      same before and after, in the same order. */
  lemma DeleteKeepsOtherOwners(s: seq<SummaryRecord>, userId: string, summaryId: string, other: string)
    requires other != userId
    requires Deleted(s, userId, summaryId).Some?
    ensures Select(Deleted(s, userId, summaryId).value, ByOwner(other)) == Select(s, ByOwner(other))
  {
    var i :| 0 <= i < |s| && Matches(s[i], DeleteFilter(userId, summaryId))
          && Deleted(s, userId, summaryId).value == s[..i] + s[i + 1..];
    SelectRemoveUnmatched(s, i, ByOwner(other));
  }

  /** Removing a document that the filter rejects does not change what the
      filter selects. */
  lemma SelectRemoveUnmatched(s: seq<SummaryRecord>, i: nat, f: SummaryFilter)
    requires i < |s| && !Matches(s[i], f)
    ensures Select(s[..i] + s[i + 1..], f) == Select(s, f)
  {
    var a, x, b := s[..i], s[i], s[i + 1..];
    assert a + [x] == s[..i + 1];
    assert s == s[..i + 1] + b;
    SelectConcat(a + [x], b, f);
    SelectConcat(a, [x], f);
    assert Select([x], f) == [] by {
      assert [x][..0] == [];
    }
    SelectConcat(a, b, f);
  }

  /** A caller can neither update nor delete a summary it does not own: if
      every document with that summary id belongs to someone else, the
      delete reports no match; if the caller owns no document, an update
      keyed by the caller's id reports no match, whatever server and
      visibility it names. */
  lemma ForeignSummariesUnreachable(s: seq<SummaryRecord>, caller: string, summaryId: string,
                                    serverId: string, isPrivate: bool, content: string, now: string)
    ensures (forall k :: 0 <= k < |s| && s[k].summaryId == summaryId ==> s[k].userId != caller)
            ==> Deleted(s, caller, summaryId) == None
    ensures (forall k :: 0 <= k < |s| ==> s[k].userId != caller)
            ==> Updated(s, caller, serverId, isPrivate, content, now) == None
  {
  }

  /** When the caller owns only the last document, an update that matches
      it edits exactly that document. */
  lemma UpdateOnlyOwned(s: seq<SummaryRecord>, x: SummaryRecord, serverId: string, isPrivate: bool,
                        content: string, now: string)
    requires forall k :: 0 <= k < |s| ==> s[k].userId != x.userId
    requires x.serverId == serverId && x.isPrivate == isPrivate
    ensures Updated(s + [x], x.userId, serverId, isPrivate, content, now)
            == Some(s + [x.(summary := content, updatedAt := now)])
  {
    var t := s + [x];
    var u := Updated(t, x.userId, serverId, isPrivate, content, now);
    assert Matches(t[|s|], UpdateFilter(x.userId, serverId, isPrivate));
    var i :| 0 <= i < |t| && Matches(t[i], UpdateFilter(x.userId, serverId, isPrivate))
          && u.value == t[i := t[i].(summary := content, updatedAt := now)];
    assert i == |s|;
    assert t[i := t[i].(summary := content, updatedAt := now)] == s + [x.(summary := content, updatedAt := now)];
  }

  /** When the caller owns only the last document, deleting it by its id
      leaves the documents before it. */
  lemma DeleteOnlyOwned(s: seq<SummaryRecord>, x: SummaryRecord)
    requires forall k :: 0 <= k < |s| ==> s[k].userId != x.userId
    ensures Deleted(s + [x], x.userId, x.summaryId) == Some(s)
  {
    var t := s + [x];
    var d := Deleted(t, x.userId, x.summaryId);
    assert Matches(t[|s|], DeleteFilter(x.userId, x.summaryId));
    var j :| 0 <= j < |t| && Matches(t[j], DeleteFilter(x.userId, x.summaryId))
          && d.value == t[..j] + t[j + 1..];
    assert j == |s|;
    assert t[..j] == s && t[j + 1..] == [];
    assert d.value == s;
  }

  /** Create, list, update, list, delete, list for an owner who had no
      summaries: the listing shows exactly the created document, then its
      new content, then nothing. */
  lemma CrudRoundTrip(s: seq<SummaryRecord>, summaryId: string, owner: string, serverId: string,
                      isPrivate: bool, content: string, createdAt: string, newContent: string, now: string)
    requires forall k :: 0 <= k < |s| ==> s[k].userId != owner
    ensures var created := NewRecord(summaryId, owner, serverId, isPrivate, content, createdAt);
            var edited := created.(summary := newContent, updatedAt := now);
            && Select(s + [created], ByOwner(owner)) == [created]
            && Updated(s + [created], owner, serverId, isPrivate, newContent, now) == Some(s + [edited])
            && Select(s + [edited], ByOwner(owner)) == [edited]
            && Deleted(s + [edited], owner, summaryId) == Some(s)
            && Select(s, ByOwner(owner)) == []
  {
    var created := NewRecord(summaryId, owner, serverId, isPrivate, content, createdAt);
    var edited := created.(summary := newContent, updatedAt := now);
    SelectNone(s, ByOwner(owner));
    assert (s + [created])[..|s|] == s;
    assert (s + [edited])[..|s|] == s;
    UpdateOnlyOwned(s, created, serverId, isPrivate, newContent, now);
    DeleteOnlyOwned(s, edited);
  }
}
