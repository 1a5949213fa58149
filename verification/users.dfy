/** The users collection: lookup by email, the asymmetric save of PUT /user
    and the merge of PATCH /user/update/:email. */
module Users {
  import opened Collections
  import opened Documents

  const REQUESTED := "Requested"

  /** findOne({ email }): the first user whose email field equals the query
      value (Null also matches users without an email field). */
  function FindUser(users: seq<Doc>, email: Value): (r: Option<nat>)
    ensures r.Some? ==> r.value < |users| && Get(users[r.value], "email") == email
    ensures r.Some? ==> forall j :: 0 <= j < r.value ==> Get(users[j], "email") != email
    ensures r.None? <==> forall j :: 0 <= j < |users| ==> Get(users[j], "email") != email
  {
    FirstMatch(users, (d: Doc) => Get(d, "email") == email)
  }

  /** PUT /user answers either with the acknowledgement of its write or
      with the record it found. */
  datatype SaveReply = Written(result: WriteResult) | Existing(record: Doc)

  datatype Saved = Saved(users: seq<Doc>, reply: SaveReply)
  datatype Updated = Updated(users: seq<Doc>, result: WriteResult)

  /** `user?.status && user.status === "Requested"` */
  predicate IsStatusRequest(payload: Doc)
  {
    "status" in payload && payload["status"] == Str(REQUESTED)
  }

  /** The fields `{ ...payload, Timestamp: now }`: the server's clock wins
      over a Timestamp in the payload. */
  function Stamped(payload: Doc, now: int): (fields: Doc)
    ensures fields.Keys == payload.Keys + {"Timestamp"}
    ensures fields["Timestamp"] == Num(now)
    ensures forall k :: k in payload && k != "Timestamp" ==> fields[k] == payload[k]
  {
    payload["Timestamp" := Num(now)]
  }

  /** The document an upsert creates: the equality field of the query,
      then the $set fields on top. */
  function NewUser(payload: Doc, now: int): (d: Doc)
    ensures IsSetOf(d, map["email" := Get(payload, "email")], Stamped(payload, now))
    ensures Get(d, "email") == Get(payload, "email")
  {
    map["email" := Get(payload, "email")] + Stamped(payload, now)
  }

  /** PUT /user: look the payload's email up; a new user is inserted with
      the whole payload and a Timestamp, an existing one only gets a
      "Requested" status, and otherwise the existing record is returned. */
  function Save(users: seq<Doc>, payload: Doc, now: int): (o: Saved)
    // no record: one document is appended, holding every payload field and the Timestamp
    ensures FindUser(users, Get(payload, "email")).None? ==>
      && |o.users| == |users| + 1 && o.users[..|users|] == users
      && IsSetOf(o.users[|users|], map["email" := Get(payload, "email")], Stamped(payload, now))
      && FindUser(o.users, Get(payload, "email")) == Some(|users|)
      && o.reply == Written(WriteResult(0, 0, 1))
    // a record and a status request: only that record's status changes
    ensures FindUser(users, Get(payload, "email")).Some? && IsStatusRequest(payload) ==>
      var i := FindUser(users, Get(payload, "email")).value;
      && |o.users| == |users|
      && (forall j :: 0 <= j < |users| && j != i ==> o.users[j] == users[j])
      && IsSetOf(o.users[i], users[i], map["status" := Str(REQUESTED)])
      && o.reply.Written? && o.reply.result.matchedCount == 1 && o.reply.result.upsertedCount == 0
      && (o.reply.result.modifiedCount == 1 <==> Get(users[i], "status") != Str(REQUESTED))
      && (o.reply.result.modifiedCount == 0 <==> Get(users[i], "status") == Str(REQUESTED))
    // a record and anything else: nothing changes and the record is returned
    ensures FindUser(users, Get(payload, "email")).Some? && !IsStatusRequest(payload) ==>
      o == Saved(users, Existing(users[FindUser(users, Get(payload, "email")).value]))
  {
    var query := Get(payload, "email");
    match FindUser(users, query)
    case None =>
      Saved(users + [NewUser(payload, now)], Written(WriteResult(0, 0, 1)))
    case Some(i) =>
      if IsStatusRequest(payload) then
        var updated := users[i]["status" := Str(REQUESTED)];
        Saved(users[i := updated], Written(WriteResult(1, if updated == users[i] then 0 else 1, 0)))
      else
        Saved(users, Existing(users[i]))
  }

  /** Signing in twice with the same payload leaves the collection as the
      first call left it; the second call returns the stored record, or
      acknowledges a status write that modified nothing. */
  lemma SaveIdempotent(users: seq<Doc>, payload: Doc, now1: int, now2: int)
    ensures var once := Save(users, payload, now1);
      var twice := Save(once.users, payload, now2);
      && twice.users == once.users
      && FindUser(once.users, Get(payload, "email")).Some?
      && twice.reply == if IsStatusRequest(payload) then Written(WriteResult(1, 0, 0))
                        else Existing(once.users[FindUser(once.users, Get(payload, "email")).value])
  {
    var query := Get(payload, "email");
    var once := Save(users, payload, now1);
    match FindUser(users, query)
    case None =>
      var i := |users|;
      assert FindUser(once.users, query) == Some(i);
      if IsStatusRequest(payload) {
        assert once.users[i]["status"] == Str(REQUESTED);
        assert once.users[i]["status" := Str(REQUESTED)] == once.users[i];
        assert once.users[i := once.users[i]] == once.users;
      }
    case Some(i) =>
      assert FindUser(once.users, query) == Some(i) by {
        assert Get(once.users[i], "email") == query;
      }
      if IsStatusRequest(payload) {
        assert once.users[i]["status" := Str(REQUESTED)] == once.users[i];
        assert once.users[i := once.users[i]] == once.users;
      }
  }

  /** PATCH /user/update/:email: `$set` of the payload and a Timestamp on
      the first user with that email; no user, no change. */
  function Update(users: seq<Doc>, email: string, payload: Doc, now: int): (o: Updated)
    ensures FindUser(users, Str(email)).None? ==> o == Updated(users, WriteResult(0, 0, 0))
    ensures FindUser(users, Str(email)).Some? ==>
      var i := FindUser(users, Str(email)).value;
      && |o.users| == |users|
      && (forall j :: 0 <= j < |users| && j != i ==> o.users[j] == users[j])
      && IsSetOf(o.users[i], users[i], Stamped(payload, now))
      && o.result.matchedCount == 1 && o.result.upsertedCount == 0
      && (o.result.modifiedCount == 0 <==> o.users[i] == users[i])
      && (o.result.modifiedCount == 1 <==> o.users[i] != users[i])
  {
    match FindUser(users, Str(email))
    case None => Updated(users, WriteResult(0, 0, 0))
    case Some(i) =>
      var updated := users[i] + Stamped(payload, now);
      Updated(users[i := updated], WriteResult(1, if updated == users[i] then 0 else 1, 0))
  }

  /** The sign-up walk-through: a new guest, then a request to become a
      host, then an admin granting the role. The record ends with role
      "host", status "Requested" and the admin's Timestamp. */
  lemma SignUpRequestPromote(t1: int, t2: int, t3: int)
    ensures var signUp := map["email" := Str("a@x.com"), "role" := Str("guest")];
      var request := map["email" := Str("a@x.com"), "status" := Str(REQUESTED)];
      var u1 := Save([], signUp, t1).users;
      var u2 := Save(u1, request, t2).users;
      var u3 := Update(u2, "a@x.com", map["role" := Str("host")], t3).users;
      && |u3| == 1
      && Get(u3[0], "email") == Str("a@x.com")
      && Get(u3[0], "role") == Str("host")
      && Get(u3[0], "status") == Str(REQUESTED)
      && Get(u3[0], "Timestamp") == Num(t3)
  {
    var email := Str("a@x.com");
    var signUp := map["email" := email, "role" := Str("guest")];
    var request := map["email" := email, "status" := Str(REQUESTED)];
    assert Get(signUp, "email") == email && Get(request, "email") == email;
    assert FindUser([], email).None?;
    var u1 := Save([], signUp, t1).users;
    assert |u1| == 1 && FindUser(u1, email) == Some(0);
    assert Get(u1[0], "role") == Str("guest");
    assert IsStatusRequest(request);
    var u2 := Save(u1, request, t2).users;
    assert |u2| == 1;
    assert Get(u2[0], "email") == email;
    assert Get(u2[0], "status") == Str(REQUESTED);
    assert FindUser(u2, email) == Some(0);
  }
}
