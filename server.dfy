/**
 * The Express back end: the bearer-token gate and the route handlers over the `users` and
 * `appointments` collections. Password hashing and comparison, token signing and token
 * verification are parameters, so nothing here depends on how they work.
 */
module Server {
  import opened Types

  const NO_TOKEN: string := "No token, authorization denied"
  const BAD_TOKEN: string := "Token is not valid"
  const USER_EXISTS: string := "User already exists"
  const INVALID_CREDENTIALS: string := "Invalid credentials"
  const DOCTOR_DELETED: string := "Doctor deleted"
  const USER_DELETED: string := "User deleted"
  const BEARER: string := "Bearer "
  /** The `expiresIn` every token is signed with. */
  const EXPIRES_IN: string := "1d"
  /** The password a doctor created without one gets. */
  const DEFAULT_PASSWORD: string := "password"
  /** The `role` enum of the user schema. */
  const ROLE_NAMES: set<string> := {"user", "doctor", "admin"}
  /** The `status` enum of the appointment schema. */
  const STATUS_NAMES: set<string> := {"pending", "approved", "completed", "cancelled"}

  // ---------------------------------------------------------------------------
  // Documents, request bodies and replies
  // ---------------------------------------------------------------------------

  /** What a token carries: the account's `id` and `role`. */
  datatype Claims = Claims(id: Option<string>, role: string)

  /** A stored user document; `password` holds the hash. */
  datatype UserDoc = UserDoc(
    id: Option<string>, name: Option<string>, email: string, password: string, role: string,
    phone: Option<string>, specialization: Option<string>, experience: Option<int>,
    availableDays: seq<string>, availableTimeStart: Option<string>, availableTimeEnd: Option<string>,
    createdAt: string)

  /** A user document as the routes send it: without the password. */
  datatype UserView = UserView(
    id: Option<string>, name: Option<string>, email: string, role: string,
    phone: Option<string>, specialization: Option<string>, experience: Option<int>,
    availableDays: seq<string>, availableTimeStart: Option<string>, availableTimeEnd: Option<string>,
    createdAt: string)

  /** The body of a register or doctor-creation request. */
  datatype UserBody = UserBody(
    id: Option<string>, name: Option<string>, email: string, password: Option<string>, role: Option<string>,
    phone: Option<string>, specialization: Option<string>, experience: Option<int>,
    availableDays: Option<seq<string>>, availableTimeStart: Option<string>, availableTimeEnd: Option<string>,
    createdAt: Option<string>)

  /** The body of an update request: every field optional. */
  datatype UserPatch = UserPatch(
    id: Option<string>, name: Option<string>, email: Option<string>, password: Option<string>, role: Option<string>,
    phone: Option<string>, specialization: Option<string>, experience: Option<int>,
    availableDays: Option<seq<string>>, availableTimeStart: Option<string>, availableTimeEnd: Option<string>)

  /** A stored appointment document. */
  datatype AptDoc = AptDoc(
    id: Option<string>, userId: Option<string>, userName: Option<string>, doctorId: Option<string>,
    doctorName: Option<string>, date: Option<string>, time: Option<string>, reason: Option<string>,
    status: string, createdAt: string)

  /** The body of an appointment creation request. */
  datatype AptBody = AptBody(
    id: Option<string>, userId: Option<string>, userName: Option<string>, doctorId: Option<string>,
    doctorName: Option<string>, date: Option<string>, time: Option<string>, reason: Option<string>,
    status: Option<string>, createdAt: Option<string>)

  /** A JSON response body. */
  datatype Body =
    | Msg(msg: string)
    | Session(token: string, user: UserView)
    | UserList(users: seq<UserView>)
    | FullUser(doc: UserDoc)
    | MaybeUser(found: Option<UserView>)
    | AptList(apts: seq<AptDoc>)
    | FullApt(apt: AptDoc)
    | MaybeApt(foundApt: Option<AptDoc>)

  /** A response: JSON with a status code, or the plain-text `Server Error` of every catch block. */
  datatype Reply = Json(code: nat, body: Body) | ServerError

  function Hide(u: UserDoc): UserView {
    UserView(u.id, u.name, u.email, u.role, u.phone, u.specialization, u.experience,
             u.availableDays, u.availableTimeStart, u.availableTimeEnd, u.createdAt)
  }

  function HideAll(s: seq<UserDoc>): (r: seq<UserView>)
    ensures |r| == |s|
    ensures forall k :: 0 <= k < |s| ==> r[k] == Hide(s[k])
  {
    if s == [] then [] else [Hide(s[0])] + HideAll(s[1..])
  }

  // ---------------------------------------------------------------------------
  // The `auth` middleware
  // ---------------------------------------------------------------------------

  /** `pat` occurs in `s` starting at `i`. */
  predicate OccursAt(s: string, pat: string, i: int) {
    0 <= i <= |s| - |pat| && s[i..i + |pat|] == pat
  }

  /** Where the first occurrence of `pat` in `s` starts; `|s|` when there is none. */
  function FirstOccurrence(s: string, pat: string): (i: nat)
    ensures i <= |s|
    ensures Contains(s, pat) ==> OccursAt(s, pat, i)
    ensures !Contains(s, pat) ==> i == |s|
    ensures forall j :: 0 <= j < i ==> !OccursAt(s, pat, j)
    decreases |s|
  {
    if |s| < |pat| then |s|
    else if s[..|pat|] == pat then 0
    else
      var t := s[1..];
      assert forall j :: 1 <= j ==> (OccursAt(s, pat, j) <==> OccursAt(t, pat, j - 1));
      1 + FirstOccurrence(t, pat)
  }

  /** `s.replace(pat, '')` with a string pattern: only the first occurrence goes. */
  function StripFirst(s: string, pat: string): (r: string)
    ensures !Contains(s, pat) ==> r == s
    ensures Contains(s, pat) ==> |r| == |s| - |pat|
    ensures Contains(s, pat) ==> var i := FirstOccurrence(s, pat);
      i + |pat| <= |s| && r == s[..i] + s[i + |pat|..]
    decreases |s|
  {
    if |s| < |pat| then s
    else if s[..|pat|] == pat then s[|pat|..]
    else
      StripStep(s, pat);
      [s[0]] + StripFirst(s[1..], pat)
  }

  /** Past a position where `pat` does not start, the first occurrence moves one place on. */
  lemma StripStep(s: string, pat: string)
    requires |pat| <= |s| && s[..|pat|] != pat
    ensures Contains(s, pat) == Contains(s[1..], pat)
    ensures Contains(s, pat) ==> FirstOccurrence(s, pat) == 1 + FirstOccurrence(s[1..], pat)
    ensures Contains(s, pat) ==> var t, j := s[1..], FirstOccurrence(s[1..], pat);
      j + |pat| <= |t| && [s[0]] + (t[..j] + t[j + |pat|..]) == s[..1 + j] + s[1 + j + |pat|..]
  {
    var t := s[1..];
    if Contains(s, pat) {
      var j := FirstOccurrence(t, pat);
      assert s[..1 + j] == [s[0]] + t[..j];
      assert s[1 + j + |pat|..] == t[j + |pat|..];
    }
  }

  /** A header of the form `Bearer <token>` yields the token. */
  lemma StripBearer(token: string)
    ensures StripFirst(BEARER + token, BEARER) == token
  {
    assert (BEARER + token)[..|BEARER|] == BEARER;
    assert (BEARER + token)[|BEARER|..] == token;
  }

  /** `req.header('Authorization')?.replace('Bearer ', '')`. */
  function BearerToken(header: Option<string>): Option<string> {
    if header.Some? then Some(StripFirst(header.value, BEARER)) else None
  }

  /** The middleware's verdict: the request goes on with the decoded claims, or is answered here. */
  datatype Gate = Admitted(claims: Claims) | Rejected(reply: Reply)

  /** `auth`: no token (absent or empty) is 401, a token that fails verification is 400. */
  function Authenticate(header: Option<string>, verify: string -> Option<Claims>): (g: Gate)
    ensures var t := BearerToken(header);
      && (t.None? || t.value == "" <==> g == Rejected(Json(401, Msg(NO_TOKEN))))
      && (t.Some? && t.value != "" && verify(t.value).None? <==> g == Rejected(Json(400, Msg(BAD_TOKEN))))
      && (g.Admitted? <==> t.Some? && t.value != "" && verify(t.value).Some?)
      && (g.Admitted? ==> g.claims == verify(t.value).value)
  {
    var t := BearerToken(header);
    if t.None? || t.value == "" then Rejected(Json(401, Msg(NO_TOKEN)))
    else match verify(t.value)
      case None => Rejected(Json(400, Msg(BAD_TOKEN)))
      case Some(c) => Admitted(c)
  }

  /** A request without the header, or with the bare prefix, never reaches a guarded handler. */
  lemma MissingTokenRejected(verify: string -> Option<Claims>)
    ensures Authenticate(None, verify) == Rejected(Json(401, Msg(NO_TOKEN)))
    ensures Authenticate(Some(BEARER), verify) == Rejected(Json(401, Msg(NO_TOKEN)))
  {
    StripBearer("");
  }

  /** Admission depends only on the token verifying: any role in the claims gets through. */
  lemma AdmissionIgnoresRole(token: string, verify: string -> Option<Claims>, c: Claims)
    requires token != "" && verify(token) == Some(c)
    ensures Authenticate(Some(BEARER + token), verify) == Admitted(c)
  {
    StripBearer(token);
  }

  // ---------------------------------------------------------------------------
  // Collection queries
  // ---------------------------------------------------------------------------

  /** `findOne({ email })`: the position of the first document with that email, `|s|` if none. */
  function FirstEmail(s: seq<UserDoc>, email: string): (k: nat)
    ensures k <= |s|
    ensures k < |s| ==> s[k].email == email
    ensures forall j :: 0 <= j < k ==> s[j].email != email
  {
    if s == [] then 0
    else if s[0].email == email then 0
    else
      assert forall j :: 1 <= j < |s| ==> s[j] == s[1..][j - 1];
      1 + FirstEmail(s[1..], email)
  }

  /** The `id` key of a user document. */
  function UserIdOf(d: UserDoc): Option<string> {
    d.id
  }

  /** The `id` key of an appointment document. */
  function AptIdOf(a: AptDoc): Option<string> {
    a.id
  }

  /** `findOne({ id })`: the position of the first document whose id is `id`, `|s|` if none. */
  function FirstId<T>(s: seq<T>, idOf: T -> Option<string>, id: string): (k: nat)
    ensures k <= |s|
    ensures k < |s| ==> idOf(s[k]) == Some(id)
    ensures forall j :: 0 <= j < k ==> idOf(s[j]) != Some(id)
  {
    if s == [] then 0
    else if idOf(s[0]) == Some(id) then 0
    else
      assert forall j :: 1 <= j < |s| ==> s[j] == s[1..][j - 1];
      1 + FirstId(s[1..], idOf, id)
  }

  /** `find({ role: 'doctor' })`: the doctor documents, in stored order. */
  function DoctorDocs(s: seq<UserDoc>): (r: seq<UserDoc>)
    ensures forall d :: d in r <==> d in s && d.role == "doctor"
  {
    if s == [] then []
    else (if s[0].role == "doctor" then [s[0]] else []) + DoctorDocs(s[1..])
  }

  // ---------------------------------------------------------------------------
  // The unique indexes
  // ---------------------------------------------------------------------------

  /** The unique indexes on `id` and `email`: no two user documents share either. */
  ghost predicate UsersUnique(s: seq<UserDoc>) {
    forall i, j :: 0 <= i < j < |s| ==> s[i].id != s[j].id && s[i].email != s[j].email
  }

  /** The unique index on appointment `id`. */
  ghost predicate AptsUnique(s: seq<AptDoc>) {
    forall i, j :: 0 <= i < j < |s| ==> s[i].id != s[j].id
  }

  /** `u` shares its id or its email with a document of `s` other than the one at `skip`. */
  predicate ClashesExcept(s: seq<UserDoc>, u: UserDoc, skip: int) {
    exists k :: 0 <= k < |s| && k != skip && (s[k].id == u.id || s[k].email == u.email)
  }

  /** What `save` checks of a new user document: the required fields, the role enum and both indexes. */
  predicate UserSaves(s: seq<UserDoc>, u: UserDoc) {
    u.email != "" && u.password != "" && u.role in ROLE_NAMES && !ClashesExcept(s, u, -1)
  }

  /** What `save` checks of a new appointment: the status enum and the id index. */
  predicate AptSaves(s: seq<AptDoc>, a: AptDoc) {
    a.status in STATUS_NAMES && !(exists k :: 0 <= k < |s| && s[k].id == a.id)
  }

  /** A successful insert keeps the indexes unique. */
  lemma InsertKeepsUnique(s: seq<UserDoc>, u: UserDoc)
    requires UsersUnique(s) && UserSaves(s, u)
    ensures UsersUnique(s + [u])
  {
    forall i, j | 0 <= i < j < |s + [u]|
      ensures (s + [u])[i].id != (s + [u])[j].id && (s + [u])[i].email != (s + [u])[j].email
    {
      if j == |s| {
        assert (s + [u])[i] == s[i];
        assert !(s[i].id == u.id || s[i].email == u.email);
      }
    }
  }

  /** A status change keeps the appointment index unique. */
  lemma SetStatusKeepsUnique(s: seq<AptDoc>, k: nat, status: Option<string>)
    requires AptsUnique(s) && k < |s|
    ensures AptsUnique(s[k := WithStatus(s[k], status)])
  {
    var t := s[k := WithStatus(s[k], status)];
    assert forall j :: 0 <= j < |t| ==> t[j].id == s[j].id;
  }

  /** A successful appointment insert keeps its index unique. */
  lemma InsertAptKeepsUnique(s: seq<AptDoc>, a: AptDoc)
    requires AptsUnique(s) && AptSaves(s, a)
    ensures AptsUnique(s + [a])
  {
    forall i, j | 0 <= i < j < |s + [a]|
      ensures (s + [a])[i].id != (s + [a])[j].id
    {
      if j == |s| {
        assert (s + [a])[i] == s[i];
      }
    }
  }

  /** An update that clashes with no other document keeps the indexes unique. */
  lemma ReplaceKeepsUnique(s: seq<UserDoc>, k: nat, v: UserDoc)
    requires UsersUnique(s) && k < |s| && !ClashesExcept(s, v, k)
    ensures UsersUnique(s[k := v])
  {
    var t := s[k := v];
    forall i, j | 0 <= i < j < |t|
      ensures t[i].id != t[j].id && t[i].email != t[j].email
    {
      if i == k {
        assert !(s[j].id == v.id || s[j].email == v.email);
      } else if j == k {
        assert !(s[i].id == v.id || s[i].email == v.email);
      }
    }
  }

  // ---------------------------------------------------------------------------
  // Document construction
  // ---------------------------------------------------------------------------

  /** `new User({...})`: schema defaults for `availableDays` and `createdAt`. */
  function FromBody(b: UserBody, role: string, password: string, now: string): UserDoc {
    UserDoc(b.id, b.name, b.email, password, role, b.phone, b.specialization, b.experience,
            b.availableDays.GetOr([]), b.availableTimeStart, b.availableTimeEnd, b.createdAt.GetOr(now))
  }

  /** The document register saves: the body's role (default `user`), the hash of the body's password. */
  function RegisteredUser(b: UserBody, hash: string -> string, now: string): (u: UserDoc)
    requires b.password.Some?
    ensures u.role == b.role.GetOr("user") && u.password == hash(b.password.value)
    ensures u.email == b.email && u.id == b.id && u.name == b.name
  {
    FromBody(b, b.role.GetOr("user"), hash(b.password.value), now)
  }

  /** The document doctor creation saves: role forced to `doctor`, the body's password or the default, hashed. */
  function CreatedDoctor(b: UserBody, hash: string -> string, now: string): (u: UserDoc)
    ensures u.role == "doctor"
    ensures u.password == hash(if b.password.Some? && b.password.value != "" then b.password.value else DEFAULT_PASSWORD)
    ensures u.email == b.email && u.id == b.id && u.specialization == b.specialization
  {
    FromBody(b, "doctor", hash(OrElse(b.password, DEFAULT_PASSWORD)), now)
  }

  /** Only doctor creation forces the role: register keeps whatever role the body asks for. */
  lemma RegisterTakesBodyRole(b: UserBody, hash: string -> string, now: string, role: string)
    requires b.password.Some? && b.role == Some(role)
    ensures RegisteredUser(b, hash, now).role == role
    ensures CreatedDoctor(b, hash, now).role == "doctor"
  {
  }

  /** The update handlers' password rule: a non-empty password is hashed, any other is dropped. */
  function PreparePatch(p: UserPatch, hash: string -> string): (q: UserPatch)
    ensures q.password.Some? <==> p.password.Some? && p.password.value != ""
    ensures q.password.Some? ==> q.password.value == hash(p.password.value)
    ensures q == p.(password := q.password)
  {
    if p.password.Some? && p.password.value != "" then p.(password := Some(hash(p.password.value)))
    else p.(password := None)
  }

  /** A patch value over an optional stored field. */
  function Over<T>(p: Option<T>, stored: Option<T>): Option<T> {
    if p.Some? then p else stored
  }

  /** `findOneAndUpdate`'s `$set`: each field the patch carries replaces the stored one. */
  function Patched(u: UserDoc, p: UserPatch): UserDoc {
    UserDoc(Over(p.id, u.id), Over(p.name, u.name), p.email.GetOr(u.email), p.password.GetOr(u.password),
            p.role.GetOr(u.role), Over(p.phone, u.phone), Over(p.specialization, u.specialization),
            Over(p.experience, u.experience), p.availableDays.GetOr(u.availableDays),
            Over(p.availableTimeStart, u.availableTimeStart), Over(p.availableTimeEnd, u.availableTimeEnd),
            u.createdAt)
  }

  /** An update without a password, or with an empty one, keeps the stored hash; otherwise stores the new hash. */
  lemma PasswordRule(u: UserDoc, p: UserPatch, hash: string -> string)
    ensures p.password.None? || p.password == Some("") ==> Patched(u, PreparePatch(p, hash)).password == u.password
    ensures p.password.Some? && p.password.value != "" ==>
      Patched(u, PreparePatch(p, hash)).password == hash(p.password.value)
  {
  }

  /** An update changes no field the patch leaves out. */
  lemma EmptyPatchChangesNothing(u: UserDoc, hash: string -> string)
    ensures Patched(u, PreparePatch(UserPatch(None, None, None, None, None, None, None, None, None, None, None), hash)) == u
  {
  }

  /** `new Appointment(req.body)`: status defaults to `pending`, `createdAt` to now. */
  function NewApt(b: AptBody, now: string): (a: AptDoc)
    ensures b.status.None? ==> a.status == "pending"
    ensures b.status.Some? ==> a.status == b.status.value
    ensures a.id == b.id && a.userId == b.userId && a.doctorId == b.doctorId
  {
    AptDoc(b.id, b.userId, b.userName, b.doctorId, b.doctorName, b.date, b.time, b.reason,
           b.status.GetOr("pending"), b.createdAt.GetOr(now))
  }

  /** The status PATCH's `{ status }`: an absent status leaves the document as it is. */
  function WithStatus(a: AptDoc, status: Option<string>): (r: AptDoc)
    ensures r == a.(status := status.GetOr(a.status))
  {
    if status.Some? then a.(status := status.value) else a
  }

  // ---------------------------------------------------------------------------
  // Removal
  // ---------------------------------------------------------------------------

  function RemoveAt<T>(s: seq<T>, k: nat): (r: seq<T>)
    requires k < |s|
    ensures |r| == |s| - 1
    ensures forall j :: 0 <= j < k ==> r[j] == s[j]
    ensures forall j :: k <= j < |r| ==> r[j] == s[j + 1]
  {
    s[..k] + s[k + 1..]
  }

  /** `findOneAndDelete({ id })`: the first document with that id goes, if there is one. */
  function DeleteById(s: seq<UserDoc>, id: string): (r: seq<UserDoc>)
    ensures FirstId(s, UserIdOf, id) == |s| ==> r == s
    ensures FirstId(s, UserIdOf, id) < |s| ==> r == RemoveAt(s, FirstId(s, UserIdOf, id))
  {
    var k := FirstId(s, UserIdOf, id);
    if k < |s| then RemoveAt(s, k) else s
  }

  /** Deleting keeps the indexes unique, and with unique ids leaves no document with that id. */
  lemma DeleteRemovesId(s: seq<UserDoc>, id: string)
    requires UsersUnique(s)
    ensures UsersUnique(DeleteById(s, id))
    ensures forall j :: 0 <= j < |DeleteById(s, id)| ==> DeleteById(s, id)[j].id != Some(id)
  {
    var k := FirstId(s, UserIdOf, id);
    if k < |s| {
      var r := DeleteById(s, id);
      forall i, j | 0 <= i < j < |r|
        ensures r[i].id != r[j].id && r[i].email != r[j].email
      {
        var i' := if i < k then i else i + 1;
        var j' := if j < k then j else j + 1;
        assert r[i] == s[i'] && r[j] == s[j'];
      }
      forall j | 0 <= j < |r| ensures r[j].id != Some(id) {
        if j >= k {
          assert r[j] == s[j + 1];
        }
      }
    }
  }

  /** A second delete of the same id changes nothing. */
  lemma DeleteIdempotent(s: seq<UserDoc>, id: string)
    requires UsersUnique(s)
    ensures DeleteById(DeleteById(s, id), id) == DeleteById(s, id)
  {
    var r := DeleteById(s, id);
    DeleteRemovesId(s, id);
  }

  // ---------------------------------------------------------------------------
  // Login, a read-only decision
  // ---------------------------------------------------------------------------

  /**
   * `POST /api/auth/login`: one message for an unknown email and for a wrong password. A body
   * without a password for a known email makes `bcrypt.compare` reject, which is the catch block's
   * server error.
   */
  function LoginReply(users: seq<UserDoc>, email: string, password: Option<string>,
                      compare: (string, string) -> bool, sign: (Claims, string) -> string): (r: Reply)
    ensures var k := FirstEmail(users, email);
      && (r == Json(400, Msg(INVALID_CREDENTIALS)) <==>
            k == |users| || (password.Some? && !compare(password.value, users[k].password)))
      && (r == ServerError <==> k < |users| && password.None?)
      && (r != Json(400, Msg(INVALID_CREDENTIALS)) && r != ServerError ==>
            r == Json(200, Session(sign(Claims(users[k].id, users[k].role), EXPIRES_IN), Hide(users[k]))))
  {
    var k := FirstEmail(users, email);
    if k == |users| then Json(400, Msg(INVALID_CREDENTIALS))
    else if password.None? then ServerError
    else if !compare(password.value, users[k].password) then Json(400, Msg(INVALID_CREDENTIALS))
    else Json(200, Session(sign(Claims(users[k].id, users[k].role), EXPIRES_IN), Hide(users[k])))
  }

  /** An account just registered can log in with the password it registered with, when the hash checks. */
  lemma RegisterThenLogin(users: seq<UserDoc>, u: UserDoc, password: string,
                          compare: (string, string) -> bool, sign: (Claims, string) -> string)
    requires UserSaves(users, u) && compare(password, u.password)
    ensures LoginReply(users + [u], u.email, Some(password), compare, sign)
         == Json(200, Session(sign(Claims(u.id, u.role), EXPIRES_IN), Hide(u)))
  {
    var s := users + [u];
    assert s[|users|] == u;
  }

  // ---------------------------------------------------------------------------
  // The database and the route handlers
  // ---------------------------------------------------------------------------

  /** The two collections. */
  class Database {
    var users: seq<UserDoc>
    var appointments: seq<AptDoc>

    ghost predicate Valid()
      reads this
    {
      UsersUnique(users) && AptsUnique(appointments)
    }

    constructor ()
      ensures users == [] && appointments == [] && Valid()
    {
      users := [];
      appointments := [];
    }

    /** `save` of a new user document; a failed save (a validator or an index) writes nothing. */
    method SaveUser(u: UserDoc) returns (saved: bool)
      requires Valid()
      modifies this
      ensures saved == UserSaves(old(users), u)
      ensures users == if saved then old(users) + [u] else old(users)
      ensures appointments == old(appointments) && Valid()
    {
      saved := UserSaves(users, u);
      if saved {
        InsertKeepsUnique(users, u);
        users := users + [u];
      }
    }

    /** `findOneAndUpdate({ id }, patch, { new: true })` on users; `None` when no document matches. */
    method UpdateUser(id: string, p: UserPatch) returns (ok: bool, updated: Option<UserDoc>)
      requires Valid()
      modifies this
      ensures var k := FirstId(old(users), UserIdOf, id);
        if k == |old(users)| then
          ok && updated.None? && users == old(users)
        else
          var v := Patched(old(users)[k], p);
          && ok == !ClashesExcept(old(users), v, k)
          && users == (if ok then old(users)[k := v] else old(users))
          && (ok ==> updated == Some(v))
      ensures appointments == old(appointments) && Valid()
    {
      var k := FirstId(users, UserIdOf, id);
      if k == |users| {
        return true, None;
      }
      var v := Patched(users[k], p);
      ok := !ClashesExcept(users, v, k);
      updated := None;
      if ok {
        ReplaceKeepsUnique(users, k, v);
        users := users[k := v];
        updated := Some(v);
      }
    }

    /** `findOneAndDelete({ id })` on users. */
    method DeleteUser(id: string)
      requires Valid()
      modifies this
      ensures users == DeleteById(old(users), id)
      ensures appointments == old(appointments) && Valid()
    {
      DeleteRemovesId(users, id);
      users := DeleteById(users, id);
    }

    /** `save` of a new appointment. */
    method SaveApt(a: AptDoc) returns (saved: bool)
      requires Valid()
      modifies this
      ensures saved == AptSaves(old(appointments), a)
      ensures appointments == if saved then old(appointments) + [a] else old(appointments)
      ensures users == old(users) && Valid()
    {
      saved := AptSaves(appointments, a);
      if saved {
        InsertAptKeepsUnique(appointments, a);
        appointments := appointments + [a];
      }
    }

    /** `findOneAndUpdate({ id }, { status }, { new: true })` on appointments; no validator runs. */
    method UpdateStatus(id: string, status: Option<string>) returns (updated: Option<AptDoc>)
      requires Valid()
      modifies this
      ensures var k := FirstId(old(appointments), AptIdOf, id);
        if k == |old(appointments)| then
          updated.None? && appointments == old(appointments)
        else
          && updated == Some(WithStatus(old(appointments)[k], status))
          && appointments == old(appointments)[k := WithStatus(old(appointments)[k], status)]
      ensures users == old(users) && Valid()
    {
      var k := FirstId(appointments, AptIdOf, id);
      if k == |appointments| {
        return None;
      }
      var a := WithStatus(appointments[k], status);
      SetStatusKeepsUnique(appointments, k, status);
      appointments := appointments[k := a];
      updated := Some(a);
    }
  }

  /** `POST /api/auth/register`. A body without a password makes the hash call throw. */
  method Register(db: Database, body: UserBody, hash: string -> string, sign: (Claims, string) -> string,
                  now: string) returns (reply: Reply)
    requires db.Valid()
    modifies db
    ensures FirstEmail(old(db.users), body.email) < |old(db.users)| ==>
      reply == Json(400, Msg(USER_EXISTS)) && db.users == old(db.users)
    ensures FirstEmail(old(db.users), body.email) == |old(db.users)| && body.password.None? ==>
      reply == ServerError && db.users == old(db.users)
    ensures FirstEmail(old(db.users), body.email) == |old(db.users)| && body.password.Some? ==>
      var u := RegisteredUser(body, hash, now);
      if UserSaves(old(db.users), u) then
        db.users == old(db.users) + [u] && reply == Json(200, Session(sign(Claims(u.id, u.role), EXPIRES_IN), Hide(u)))
      else
        db.users == old(db.users) && reply == ServerError
    ensures db.appointments == old(db.appointments) && db.Valid()
  {
    if FirstEmail(db.users, body.email) < |db.users| {
      return Json(400, Msg(USER_EXISTS));
    }
    if body.password.None? {
      return ServerError;
    }
    var u := RegisteredUser(body, hash, now);
    var saved := db.SaveUser(u);
    if !saved {
      return ServerError;
    }
    reply := Json(200, Session(sign(Claims(u.id, u.role), EXPIRES_IN), Hide(u)));
  }

  /** `POST /api/auth/login`. */
  method Login(db: Database, email: string, password: Option<string>,
               compare: (string, string) -> bool, sign: (Claims, string) -> string) returns (reply: Reply)
    ensures reply == LoginReply(db.users, email, password, compare, sign)
  {
    var k := FirstEmail(db.users, email);
    if k == |db.users| {
      return Json(400, Msg(INVALID_CREDENTIALS));
    }
    if password.None? {
      return ServerError;
    }
    var isMatch := compare(password.value, db.users[k].password);
    if !isMatch {
      return Json(400, Msg(INVALID_CREDENTIALS));
    }
    reply := Json(200, Session(sign(Claims(db.users[k].id, db.users[k].role), EXPIRES_IN), Hide(db.users[k])));
  }

  /** `GET /api/doctors`, the one data route without the token gate. */
  method GetDoctors(db: Database) returns (reply: Reply)
    ensures reply == Json(200, UserList(HideAll(DoctorDocs(db.users))))
  {
    reply := Json(200, UserList(HideAll(DoctorDocs(db.users))));
  }

  /** `POST /api/doctors`. */
  method CreateDoctor(db: Database, header: Option<string>, verify: string -> Option<Claims>,
                      body: UserBody, hash: string -> string, now: string) returns (reply: Reply)
    requires db.Valid()
    modifies db
    ensures Authenticate(header, verify).Rejected? ==>
      reply == Authenticate(header, verify).reply && db.users == old(db.users)
    ensures Authenticate(header, verify).Admitted? ==>
      if FirstEmail(old(db.users), body.email) < |old(db.users)| then
        reply == Json(400, Msg(USER_EXISTS)) && db.users == old(db.users)
      else
        var u := CreatedDoctor(body, hash, now);
        if UserSaves(old(db.users), u) then db.users == old(db.users) + [u] && reply == Json(200, FullUser(u))
        else db.users == old(db.users) && reply == ServerError
    ensures db.appointments == old(db.appointments) && db.Valid()
  {
    var gate := Authenticate(header, verify);
    if gate.Rejected? {
      return gate.reply;
    }
    if FirstEmail(db.users, body.email) < |db.users| {
      return Json(400, Msg(USER_EXISTS));
    }
    var u := CreatedDoctor(body, hash, now);
    var saved := db.SaveUser(u);
    if !saved {
      return ServerError;
    }
    reply := Json(200, FullUser(u));
  }

  /**
   * `PUT /api/doctors/:id` and `PUT /api/users/:id`, which are the same handler: the first
   * document with that id is updated whatever its role, and `null` is sent when there is none.
   */
  method UpdateAccount(db: Database, header: Option<string>, verify: string -> Option<Claims>,
                       id: string, body: UserPatch, hash: string -> string) returns (reply: Reply)
    requires db.Valid()
    modifies db
    ensures Authenticate(header, verify).Rejected? ==>
      reply == Authenticate(header, verify).reply && db.users == old(db.users)
    ensures Authenticate(header, verify).Admitted? ==>
      var k := FirstId(old(db.users), UserIdOf, id);
      if k == |old(db.users)| then
        reply == Json(200, MaybeUser(None)) && db.users == old(db.users)
      else
        var v := Patched(old(db.users)[k], PreparePatch(body, hash));
        if ClashesExcept(old(db.users), v, k) then reply == ServerError && db.users == old(db.users)
        else reply == Json(200, MaybeUser(Some(Hide(v)))) && db.users == old(db.users)[k := v]
    ensures db.appointments == old(db.appointments) && db.Valid()
  {
    var gate := Authenticate(header, verify);
    if gate.Rejected? {
      return gate.reply;
    }
    var updates := PreparePatch(body, hash);
    var ok, updated := db.UpdateUser(id, updates);
    if !ok {
      return ServerError;
    }
    reply := Json(200, MaybeUser(if updated.Some? then Some(Hide(updated.value)) else None));
  }

  /** `DELETE /api/doctors/:id` and `DELETE /api/users/:id`: success whether or not the id exists. */
  method DeleteAccount(db: Database, header: Option<string>, verify: string -> Option<Claims>,
                       id: string, deletedText: string) returns (reply: Reply)
    requires db.Valid()
    requires deletedText == DOCTOR_DELETED || deletedText == USER_DELETED
    modifies db
    ensures Authenticate(header, verify).Rejected? ==>
      reply == Authenticate(header, verify).reply && db.users == old(db.users)
    ensures Authenticate(header, verify).Admitted? ==>
      reply == Json(200, Msg(deletedText)) && db.users == DeleteById(old(db.users), id)
    ensures db.appointments == old(db.appointments) && db.Valid()
  {
    var gate := Authenticate(header, verify);
    if gate.Rejected? {
      return gate.reply;
    }
    db.DeleteUser(id);
    reply := Json(200, Msg(deletedText));
  }

  /** `GET /api/users`: every account, doctors and admins included, without passwords. */
  method GetUsers(db: Database, header: Option<string>, verify: string -> Option<Claims>) returns (reply: Reply)
    ensures Authenticate(header, verify).Rejected? ==> reply == Authenticate(header, verify).reply
    ensures Authenticate(header, verify).Admitted? ==> reply == Json(200, UserList(HideAll(db.users)))
  {
    var gate := Authenticate(header, verify);
    if gate.Rejected? {
      return gate.reply;
    }
    reply := Json(200, UserList(HideAll(db.users)));
  }

  /** `GET /api/appointments`: every appointment. */
  method GetAppointments(db: Database, header: Option<string>, verify: string -> Option<Claims>) returns (reply: Reply)
    ensures Authenticate(header, verify).Rejected? ==> reply == Authenticate(header, verify).reply
    ensures Authenticate(header, verify).Admitted? ==> reply == Json(200, AptList(db.appointments))
  {
    var gate := Authenticate(header, verify);
    if gate.Rejected? {
      return gate.reply;
    }
    reply := Json(200, AptList(db.appointments));
  }

  /** `POST /api/appointments`: no check of the doctor, the patient or the slot. */
  method CreateAppointment(db: Database, header: Option<string>, verify: string -> Option<Claims>,
                           body: AptBody, now: string) returns (reply: Reply)
    requires db.Valid()
    modifies db
    ensures Authenticate(header, verify).Rejected? ==>
      reply == Authenticate(header, verify).reply && db.appointments == old(db.appointments)
    ensures Authenticate(header, verify).Admitted? ==>
      var a := NewApt(body, now);
      if AptSaves(old(db.appointments), a) then
        db.appointments == old(db.appointments) + [a] && reply == Json(200, FullApt(a))
      else
        db.appointments == old(db.appointments) && reply == ServerError
    ensures db.users == old(db.users) && db.Valid()
  {
    var gate := Authenticate(header, verify);
    if gate.Rejected? {
      return gate.reply;
    }
    var a := NewApt(body, now);
    var saved := db.SaveApt(a);
    if !saved {
      return ServerError;
    }
    reply := Json(200, FullApt(a));
  }

  /** `PATCH /api/appointments/:id/status`: any status string, whatever the current one. */
  method PatchStatus(db: Database, header: Option<string>, verify: string -> Option<Claims>,
                     id: string, status: Option<string>) returns (reply: Reply)
    requires db.Valid()
    modifies db
    ensures Authenticate(header, verify).Rejected? ==>
      reply == Authenticate(header, verify).reply && db.appointments == old(db.appointments)
    ensures Authenticate(header, verify).Admitted? ==>
      var k := FirstId(old(db.appointments), AptIdOf, id);
      if k == |old(db.appointments)| then
        reply == Json(200, MaybeApt(None)) && db.appointments == old(db.appointments)
      else
        var a := WithStatus(old(db.appointments)[k], status);
        reply == Json(200, MaybeApt(Some(a))) && db.appointments == old(db.appointments)[k := a]
    ensures db.users == old(db.users) && db.Valid()
  {
    var gate := Authenticate(header, verify);
    if gate.Rejected? {
      return gate.reply;
    }
    var updated := db.UpdateStatus(id, status);
    reply := Json(200, MaybeApt(updated));
  }

  /** The PATCH sets exactly the requested status, from any current status. */
  lemma StatusSetUnchecked(a: AptDoc, status: string)
    ensures WithStatus(a, Some(status)).status == status
    ensures WithStatus(a, Some(status)).id == a.id
  {
  }
}
