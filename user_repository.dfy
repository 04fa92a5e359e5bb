/** The users collection, with summaries embedded in each user document.
    Every operation addresses users by their `id` field (the provider's
    user id) and acts on the first such document in collection order; none
    of the writes reports a miss as an error. */
module UserRepository {
  import opened Common

  /** An element of a user's embedded `summaries` array. */
  datatype EmbeddedSummary = EmbeddedSummary(id: string, content: string)

  /** A user document. `username` and `discriminator` hold whatever JSON
      value was last `$set` on them (CreateUser always writes strings). */
  datatype User = User(
    id: string,
    uuid: string,
    token: Payload,
    username: JValue,
    discriminator: JValue,
    summaries: seq<EmbeddedSummary>)

  /** The `$set` document of UpdateUser: a None field is not set. */
  datatype UserUpdate = UserUpdate(
    token: Option<Payload>,
    username: Option<JValue>,
    discriminator: Option<JValue>)

  function Apply(u: User, upd: UserUpdate): User
  {
    u.(token := if upd.token.Some? then upd.token.value else u.token,
       username := if upd.username.Some? then upd.username.value else u.username,
       discriminator := if upd.discriminator.Some? then upd.discriminator.value else u.discriminator)
  }

  /** `i` is the document a filter {"id": id} picks. */
  ghost predicate IsFirstWithId(users: seq<User>, id: string, i: int)
  {
    && 0 <= i < |users|
    && users[i].id == id
    && forall k :: 0 <= k < i ==> users[k].id != id
  }

  ghost predicate HasId(users: seq<User>, id: string)
  {
    exists k :: 0 <= k < |users| && users[k].id == id
  }

  /** No two documents share an id. No index is keyed on `id` (the unique
      index the repository constructor creates is on `user_id`, a field user
      documents lack, and its side effect on inserts is left out of this
      model); in the model only the login flow's find-then-create maintains
      it. */
  ghost predicate UniqueIds(users: seq<User>)
  {
    forall i, j :: 0 <= i < |users| && 0 <= j < |users| && users[i].id == users[j].id ==> i == j
  }

  function FirstWithId(users: seq<User>, id: string): (r: Option<nat>)
    ensures r.None? <==> !HasId(users, id)
    ensures r.Some? ==> IsFirstWithId(users, id, r.value)
  {
    FirstIndex(users, (u: User) => u.id == id)
  }

  /** FindOne({"id": id}). */
  function Lookup(users: seq<User>, id: string): (r: Option<User>)
    ensures r.None? <==> !HasId(users, id)
    ensures r.Some? ==> exists i :: IsFirstWithId(users, id, i) && r.value == users[i]
  {
    match FirstWithId(users, id)
    case None => None
    case Some(i) => Some(users[i])
  }

  /** UpdateOne({"id": id}, {$set: upd}): the given fields of the first
      user with that id are overwritten; nothing else changes. */
  function SetFields(users: seq<User>, id: string, upd: UserUpdate): (r: seq<User>)
    ensures |r| == |users|
    ensures forall k :: 0 <= k < |users| ==>
              && r[k].id == users[k].id && r[k].uuid == users[k].uuid
              && r[k].summaries == users[k].summaries
    ensures forall k :: 0 <= k < |users| && !IsFirstWithId(users, id, k) ==> r[k] == users[k]
    ensures forall k :: IsFirstWithId(users, id, k) ==>
              && (upd.token.Some? ==> r[k].token == upd.token.value)
              && (upd.username.Some? ==> r[k].username == upd.username.value)
              && (upd.discriminator.Some? ==> r[k].discriminator == upd.discriminator.value)
              && (upd.token.None? ==> r[k].token == users[k].token)
              && (upd.username.None? ==> r[k].username == users[k].username)
              && (upd.discriminator.None? ==> r[k].discriminator == users[k].discriminator)
  {
    match FirstWithId(users, id)
    case None => users
    case Some(i) => users[i := Apply(users[i], upd)]
  }

  /** UpdateOne({"id": userId}, {$push: {summaries: s}}). */
  function Pushed(users: seq<User>, userId: string, s: EmbeddedSummary): (r: seq<User>)
    ensures |r| == |users|
    ensures forall k :: 0 <= k < |users| && !IsFirstWithId(users, userId, k) ==> r[k] == users[k]
    ensures forall k :: IsFirstWithId(users, userId, k) ==>
              r[k] == users[k].(summaries := users[k].summaries + [s])
  {
    match FirstWithId(users, userId)
    case None => users
    case Some(i) => users[i := users[i].(summaries := users[i].summaries + [s])]
  }

  predicate HasSummary(ss: seq<EmbeddedSummary>, summaryId: string)
  {
    exists j :: 0 <= j < |ss| && ss[j].id == summaryId
  }

  /** `$set: {"summaries.$.content": content}` on one array: the first
      element with that id gets the new content. */
  function ContentSetIn(ss: seq<EmbeddedSummary>, summaryId: string, content: string): (r: seq<EmbeddedSummary>)
    ensures |r| == |ss|
    ensures forall j :: 0 <= j < |ss| ==> r[j].id == ss[j].id
    ensures !HasSummary(ss, summaryId) ==> r == ss
    ensures HasSummary(ss, summaryId) ==>
              exists j :: && 0 <= j < |ss| && ss[j].id == summaryId
                          && (forall j' :: 0 <= j' < j ==> ss[j'].id != summaryId)
                          && r == ss[j := ss[j].(content := content)]
  {
    match FirstIndex(ss, (e: EmbeddedSummary) => e.id == summaryId)
    case None => ss
    case Some(j) => ss[j := ss[j].(content := content)]
  }

  /** The user holds a summary with that id under that user id: the
      filter {"id": userId, "summaries.id": summaryId}. */
  predicate HoldsSummary(u: User, userId: string, summaryId: string)
    ensures HoldsSummary(u, userId, summaryId) <==> u.id == userId && exists e :: e in u.summaries && e.id == summaryId
  {
    u.id == userId && HasSummary(u.summaries, summaryId)
  }

  ghost predicate IsFirstHolder(users: seq<User>, userId: string, summaryId: string, k: int)
  {
    && 0 <= k < |users|
    && HoldsSummary(users[k], userId, summaryId)
    && forall k' :: 0 <= k' < k ==> !HoldsSummary(users[k'], userId, summaryId)
  }

  /** UpdateOne({"id": userId, "summaries.id": summaryId},
      {$set: {"summaries.$.content": content}}): the first user with that id
      that holds such a summary has the content of its first such summary
      replaced. */
  function ContentSet(users: seq<User>, userId: string, summaryId: string, content: string): (r: seq<User>)
    ensures |r| == |users|
    ensures (forall k :: 0 <= k < |users| ==> !HoldsSummary(users[k], userId, summaryId)) ==> r == users
    ensures forall k :: IsFirstHolder(users, userId, summaryId, k) ==>
              r == users[k := users[k].(summaries := ContentSetIn(users[k].summaries, summaryId, content))]
  {
    match FirstIndex(users, (u: User) => HoldsSummary(u, userId, summaryId))
    case None => users
    case Some(i) =>
      users[i := users[i].(summaries := ContentSetIn(users[i].summaries, summaryId, content))]
  }

  /** `$pull: {summaries: {id: summaryId}}` on one array: every element
      with that id goes, the others stay in order. */
  function Pulled(ss: seq<EmbeddedSummary>, summaryId: string): (r: seq<EmbeddedSummary>)
    ensures |r| <= |ss|
    ensures forall j :: 0 <= j < |r| ==> r[j].id != summaryId
    ensures (forall j :: 0 <= j < |ss| ==> ss[j].id != summaryId) ==> r == ss
  {
    if ss == [] then []
    else if ss[0].id == summaryId then Pulled(ss[1..], summaryId)
    else [ss[0]] + Pulled(ss[1..], summaryId)
  }

  /** UpdateOne({"id": userId}, {$pull: {summaries: {id: summaryId}}}). */
  function PulledFrom(users: seq<User>, userId: string, summaryId: string): (r: seq<User>)
    ensures |r| == |users|
    ensures forall k :: 0 <= k < |users| && !IsFirstWithId(users, userId, k) ==> r[k] == users[k]
    ensures forall k :: IsFirstWithId(users, userId, k) ==>
              r[k] == users[k].(summaries := Pulled(users[k].summaries, summaryId))
  {
    match FirstWithId(users, userId)
    case None => users
    case Some(i) => users[i := users[i].(summaries := Pulled(users[i].summaries, summaryId))]
  }

  /** CountDocuments({"id": id}). */
  function CountId(users: seq<User>, id: string): (c: nat)
    ensures c <= |users|
  {
    if users == [] then 0
    else (if users[0].id == id then 1 else 0) + CountId(users[1..], id)
  }

  /** The calls made on the store, in order, whether or not they succeed. */
  datatype UserCall =
    | FindUser(id: string)
    | InsertUser(user: User)
    | SetUser(id: string, update: UserUpdate)
    | PushSummary(userId: string, summary: EmbeddedSummary)
    | ReadSummaries(userId: string)
    | SetSummaryContent(userId: string, summaryId: string, content: string)
    | PullSummary(userId: string, summaryId: string)
    | CountUsers(id: string)

  class UserStore {
    /** The users collection, in insertion order. */
    var users: seq<User>
    ghost var history: seq<UserCall>

    constructor ()
      ensures users == [] && history == []
    {
      users := [];
      history := [];
    }

    method FindUserByID(id: string, fails: bool) returns (r: Result<User>)
      modifies this`history
      ensures history == old(history) + [FindUser(id)]
      ensures fails ==> r == Err(Unavailable)
      ensures !fails ==> match Lookup(users, id)
                         case None => r == Err(NotFound)
                         case Some(u) => r == Ok(u)
    {
      history := history + [FindUser(id)];
      if fails {
        return Err(Unavailable);
      }
      match Lookup(users, id)
      case None => r := Err(NotFound);
      case Some(u) => r := Ok(u);
    }

    /** InsertOne(user): nothing checks that the id is new. */
    method CreateUser(user: User, fails: bool) returns (err: Option<StoreError>)
      modifies this`users, this`history
      ensures history == old(history) + [InsertUser(user)]
      ensures err == if fails then Some(Unavailable) else None
      ensures users == if fails then old(users) else old(users) + [user]
    {
      history := history + [InsertUser(user)];
      if fails {
        return Some(Unavailable);
      }
      users := users + [user];
      err := None;
    }

    method UpdateUser(id: string, update: UserUpdate, fails: bool) returns (err: Option<StoreError>)
      modifies this`users, this`history
      ensures history == old(history) + [SetUser(id, update)]
      ensures err == if fails then Some(Unavailable) else None
      ensures users == if fails then old(users) else SetFields(old(users), id, update)
    {
      history := history + [SetUser(id, update)];
      if fails {
        return Some(Unavailable);
      }
      users := SetFields(users, id, update);
      err := None;
    }

    method AddSummary(userId: string, summary: EmbeddedSummary, fails: bool) returns (err: Option<StoreError>)
      modifies this`users, this`history
      ensures history == old(history) + [PushSummary(userId, summary)]
      ensures err == if fails then Some(Unavailable) else None
      ensures users == if fails then old(users) else Pushed(old(users), userId, summary)
    {
      history := history + [PushSummary(userId, summary)];
      if fails {
        return Some(Unavailable);
      }
      users := Pushed(users, userId, summary);
      err := None;
    }

    method GetSummaries(userId: string, fails: bool) returns (r: Result<seq<EmbeddedSummary>>)
      modifies this`history
      ensures history == old(history) + [ReadSummaries(userId)]
      ensures fails ==> r == Err(Unavailable)
      ensures !fails ==> match Lookup(users, userId)
                         case None => r == Err(NotFound)
                         case Some(u) => r == Ok(u.summaries)
    {
      history := history + [ReadSummaries(userId)];
      if fails {
        return Err(Unavailable);
      }
      match Lookup(users, userId)
      case None => r := Err(NotFound);
      case Some(u) => r := Ok(u.summaries);
    }

    method UpdateSummary(userId: string, summaryId: string, content: string, fails: bool)
      returns (err: Option<StoreError>)
      modifies this`users, this`history
      ensures history == old(history) + [SetSummaryContent(userId, summaryId, content)]
      ensures err == if fails then Some(Unavailable) else None
      ensures users == if fails then old(users) else ContentSet(old(users), userId, summaryId, content)
    {
      history := history + [SetSummaryContent(userId, summaryId, content)];
      if fails {
        return Some(Unavailable);
      }
      users := ContentSet(users, userId, summaryId, content);
      err := None;
    }

    method DeleteSummary(userId: string, summaryId: string, fails: bool) returns (err: Option<StoreError>)
      modifies this`users, this`history
      ensures history == old(history) + [PullSummary(userId, summaryId)]
      ensures err == if fails then Some(Unavailable) else None
      ensures users == if fails then old(users) else PulledFrom(old(users), userId, summaryId)
    {
      history := history + [PullSummary(userId, summaryId)];
      if fails {
        return Some(Unavailable);
      }
      users := PulledFrom(users, userId, summaryId);
      err := None;
    }

    /** CountDocuments({"id": userId}) > 0; on a driver error the count
        reads as 0 and the error is returned beside it. */
    method IsAuthenticated(userId: string, fails: bool) returns (authenticated: bool, err: Option<StoreError>)
      modifies this`history
      ensures history == old(history) + [CountUsers(userId)]
      ensures err == if fails then Some(Unavailable) else None
      ensures authenticated <==> !fails && HasId(users, userId)
    {
      history := history + [CountUsers(userId)];
      if fails {
        return false, Some(Unavailable);
      }
      CountIdPositive(users, userId);
      authenticated := CountId(users, userId) > 0;
      err := None;
    }
  }

  // ---------------------------------------------------------------------
  // Properties of the specification functions

  lemma FirstIsUnique(users: seq<User>, id: string, i: int, j: int)
    requires IsFirstWithId(users, id, i) && IsFirstWithId(users, id, j)
    ensures i == j
  {
  }

  lemma {:induction false} CountIdPositive(users: seq<User>, id: string)
    ensures CountId(users, id) > 0 <==> HasId(users, id)
    decreases |users|
  {
    if users != [] {
      CountIdPositive(users[1..], id);
      if HasId(users[1..], id) {
        var k :| 0 <= k < |users[1..]| && users[1..][k].id == id;
        assert users[k + 1].id == id;
      }
      if users[0].id != id && HasId(users, id) {
        var k :| 0 <= k < |users| && users[k].id == id;
        assert users[1..][k - 1].id == id;
      }
    }
  }

  lemma {:induction false} CountIdAppend(users: seq<User>, u: User, id: string)
    ensures CountId(users + [u], id) == CountId(users, id) + (if u.id == id then 1 else 0)
    decreases |users|
  {
    if users == [] {
      assert [u][1..] == [];
    } else {
      assert (users + [u])[1..] == users[1..] + [u];
      CountIdAppend(users[1..], u, id);
    }
  }

  /** Two collections whose documents carry the same ids, position by
      position, count every id alike. */
  lemma {:induction false} CountIdSameIds(a: seq<User>, b: seq<User>, id: string)
    requires |a| == |b|
    requires forall k :: 0 <= k < |a| ==> a[k].id == b[k].id
    ensures CountId(a, id) == CountId(b, id)
    decreases |a|
  {
    if a != [] {
      CountIdSameIds(a[1..], b[1..], id);
    }
  }

  /** UpdateUser never changes how many users carry an id. */
  lemma SetFieldsKeepsCounts(users: seq<User>, id: string, upd: UserUpdate, other: string)
    ensures CountId(SetFields(users, id, upd), other) == CountId(users, other)
  {
    CountIdSameIds(SetFields(users, id, upd), users, other);
  }

  /** `$pull` keeps every element without the id and only those. */
  lemma {:induction false} PulledMembers(ss: seq<EmbeddedSummary>, summaryId: string, e: EmbeddedSummary)
    ensures e in Pulled(ss, summaryId) <==> e in ss && e.id != summaryId
    decreases |ss|
  {
    if ss != [] {
      PulledMembers(ss[1..], summaryId, e);
      assert ss == [ss[0]] + ss[1..];
    }
  }

  /** `$pull` preserves order: pulling from a concatenation is the
      concatenation of the pulls. */
  lemma {:induction false} PulledConcat(a: seq<EmbeddedSummary>, b: seq<EmbeddedSummary>, summaryId: string)
    ensures Pulled(a + b, summaryId) == Pulled(a, summaryId) + Pulled(b, summaryId)
    decreases |a|
  {
    if a == [] {
      assert a + b == b;
    } else {
      assert (a + b)[1..] == a[1..] + b;
      PulledConcat(a[1..], b, summaryId);
    }
  }

  /** AddSummary followed by GetSummaries: the pushed summary is the last
      element of the user's list, after the ones already there. */
  lemma PushThenRead(users: seq<User>, userId: string, s: EmbeddedSummary)
    requires HasId(users, userId)
    ensures Lookup(Pushed(users, userId, s), userId).Some?
    ensures Lookup(Pushed(users, userId, s), userId).value.summaries
            == Lookup(users, userId).value.summaries + [s]
  {
    var i := FirstWithId(users, userId).value;
    var r := Pushed(users, userId, s);
    assert IsFirstWithId(r, userId, i);
    var j :| IsFirstWithId(r, userId, j) && Lookup(r, userId).value == r[j];
    FirstIsUnique(r, userId, i, j);
    var i' :| IsFirstWithId(users, userId, i') && Lookup(users, userId).value == users[i'];
    FirstIsUnique(users, userId, i, i');
  }

  /** `$pull` by a fresh id undoes a `$push` of a summary with that id. */
  lemma PullUndoesPush(ss: seq<EmbeddedSummary>, s: EmbeddedSummary)
    requires forall j :: 0 <= j < |ss| ==> ss[j].id != s.id
    ensures Pulled(ss + [s], s.id) == ss
  {
    PulledConcat(ss, [s], s.id);
    assert Pulled([s], s.id) == Pulled([], s.id);
  }

  /** AddSummary followed by DeleteSummary of the same, previously unused,
      summary id leaves the collection as it was. */
  lemma PushThenPull(users: seq<User>, userId: string, s: EmbeddedSummary)
    requires forall k :: IsFirstWithId(users, userId, k) ==> !HasSummary(users[k].summaries, s.id)
    ensures PulledFrom(Pushed(users, userId, s), userId, s.id) == users
  {
    var r := Pushed(users, userId, s);
    var t := PulledFrom(r, userId, s.id);
    if i :| IsFirstWithId(users, userId, i) {
      assert IsFirstWithId(r, userId, i);
      PullUndoesPush(users[i].summaries, s);
      forall k | 0 <= k < |users|
        ensures t[k] == users[k]
      {
        if k != i {
          assert !IsFirstWithId(r, userId, k);
        }
      }
    } else {
      forall k | 0 <= k < |users|
        ensures t[k] == users[k]
      {
        assert !IsFirstWithId(r, userId, k);
      }
    }
  }

  /** UpdateSummary followed by GetSummaries: when the user holds the
      summary, the list read back is the old one with the first summary of
      that id carrying the new content. */
  lemma SetContentThenRead(users: seq<User>, userId: string, summaryId: string, content: string)
    requires HasId(users, userId)
    requires HasSummary(Lookup(users, userId).value.summaries, summaryId)
    ensures Lookup(ContentSet(users, userId, summaryId, content), userId).Some?
    ensures Lookup(ContentSet(users, userId, summaryId, content), userId).value.summaries
            == ContentSetIn(Lookup(users, userId).value.summaries, summaryId, content)
  {
    var i := FirstWithId(users, userId).value;
    var i' :| IsFirstWithId(users, userId, i') && Lookup(users, userId).value == users[i'];
    FirstIsUnique(users, userId, i, i');
    assert IsFirstHolder(users, userId, summaryId, i);
    var r := ContentSet(users, userId, summaryId, content);
    assert IsFirstWithId(r, userId, i);
    var k :| IsFirstWithId(r, userId, k) && Lookup(r, userId).value == r[k];
    FirstIsUnique(r, userId, i, k);
  }

  /** Reading a summary by id (the first element with it) after the
      positional `$set` finds the new content. */
  lemma ContentSetInReadsBack(ss: seq<EmbeddedSummary>, summaryId: string, content: string)
    requires HasSummary(ss, summaryId)
    ensures var after := ContentSetIn(ss, summaryId, content);
            exists j :: && 0 <= j < |after| && after[j] == EmbeddedSummary(summaryId, content)
                        && forall j' :: 0 <= j' < j ==> after[j'].id != summaryId
  {
    var after := ContentSetIn(ss, summaryId, content);
    var j :| && 0 <= j < |ss| && ss[j].id == summaryId
             && (forall j' :: 0 <= j' < j ==> ss[j'].id != summaryId)
             && after == ss[j := ss[j].(content := content)];
    assert after[j] == EmbeddedSummary(summaryId, content);
  }
}
