/** The role guards verifyAdmin and verifyHost: the stored user of the
    verified caller is looked up, and the request is rejected with
    "Bad Access" or passed on. */
module Guards {
  import opened Collections
  import opened Documents
  import Users

  /** What findOne({ email }) returns for the caller: the record, or null. */
  function CallerRecord(users: seq<Doc>, email: string): (r: Option<Doc>)
    ensures r.None? <==> forall j :: 0 <= j < |users| ==> Get(users[j], "email") != Str(email)
    ensures r.Some? ==> r.value in users && Get(r.value, "email") == Str(email)
    ensures r.Some? ==> exists i ::
      && 0 <= i < |users| && users[i] == r.value
      && forall j :: 0 <= j < i ==> Get(users[j], "email") != Str(email)
  {
    match Users.FindUser(users, Str(email))
    case None => None
    case Some(i) => Some(users[i])
  }

  /** `result?.role`: undefined when there is no record or it has no role. */
  function OptionalRole(record: Option<Doc>): Option<Value>
  {
    if record.Some? && "role" in record.value then Some(record.value["role"]) else None
  }

  /** The guard's test as written: `!result && result?.role !== role`.
      When a record exists the first conjunct is false, so only a missing
      record is rejected; the role is never looked at. */
  function AsWrittenRejects(record: Option<Doc>, role: string): (rejected: bool)
    ensures rejected <==> record.None?
  {
    record.None? && OptionalRole(record) != Some(Str(role))
  }

  /** The as-written guard in terms of the store: it rejects exactly the
      callers that have no user record, and a stored user of any role
      passes both verifyAdmin and verifyHost. */
  lemma AsWrittenRejectsOnlyUnknownCallers(users: seq<Doc>, email: string, role: string)
    ensures AsWrittenRejects(CallerRecord(users, email), role)
      <==> forall j :: 0 <= j < |users| ==> Get(users[j], "email") != Str(email)
  {
  }

  /** The evidently intended guard, `!result || result?.role !== role`
      negated: pass only a caller whose record exists and holds the role. */
  function Admits(record: Option<Doc>, role: string): (admitted: bool)
    ensures admitted <==> record.Some? && "role" in record.value && record.value["role"] == Str(role)
  {
    !(record.None? || OptionalRole(record) != Some(Str(role)))
  }

  /** Which test a guarded route runs: the guard as written in the server,
      or the corrected one. */
  datatype Reading = AsWritten | Corrected

  /** Whether the caller's record lets the request through under a reading:
      as written, any record does; corrected, only one holding the role. */
  function Passes(reading: Reading, record: Option<Doc>, role: string): (passed: bool)
    ensures reading.AsWritten? ==> (passed <==> record.Some?)
    ensures reading.Corrected? ==>
      (passed <==> record.Some? && "role" in record.value && record.value["role"] == Str(role))
  {
    match reading
    case AsWritten => !AsWrittenRejects(record, role)
    case Corrected => Admits(record, role)
  }

  /** The corrected guard, in terms of the store: a caller passes exactly
      when the first user with the caller's email holds the role. */
  lemma AdmitsExactlyStoredRole(users: seq<Doc>, email: string, role: string)
    ensures Admits(CallerRecord(users, email), role) <==>
      && Users.FindUser(users, Str(email)).Some?
      && Get(users[Users.FindUser(users, Str(email)).value], "role") == Str(role)
  {
  }

  /** Where the two guards part: a stored caller whose role is not the
      required one passes the guard as written and fails the corrected one. */
  lemma AsWrittenAdmitsWrongRole(users: seq<Doc>, email: string, role: string)
    requires Users.FindUser(users, Str(email)).Some?
    requires Get(users[Users.FindUser(users, Str(email)).value], "role") != Str(role)
    ensures !AsWrittenRejects(CallerRecord(users, email), role)
    ensures !Admits(CallerRecord(users, email), role)
  {
  }

  /** The concrete case: a signed-in guest passes verifyAdmin as written and
      the admin route PATCH /user/update/:email then lets that guest make
      themself an admin. The corrected guard rejects the guest. */
  lemma GuestPassesAdminGuard(now: int)
    ensures var guest := map["email" := Str("g@x.com"), "role" := Str("guest")];
      var users := [guest];
      && !AsWrittenRejects(CallerRecord(users, "g@x.com"), "admin")
      && !Admits(CallerRecord(users, "g@x.com"), "admin")
      && Get(Users.Update(users, "g@x.com", map["role" := Str("admin")], now).users[0], "role") == Str("admin")
  {
    var guest := map["email" := Str("g@x.com"), "role" := Str("guest")];
    var users := [guest];
    assert Get(users[0], "email") == Str("g@x.com");
    assert Users.FindUser(users, Str("g@x.com")) == Some(0);
    assert Get(guest, "role") == Str("guest");
  }
}
