/**
 * The session context: the pair {user, isAuthenticated} and the browser-storage key
 * `session_user`, driven by login, register, logout and updateProfile.
 */
module AuthContext {
  import opened Types
  import opened MockDatabase

  /** `AuthState`. */
  datatype AuthState = AuthState(user: Option<Account>, isAuthenticated: bool)

  /** The state the provider starts in. */
  const INITIAL: AuthState := AuthState(None, false)

  /** `{ success, error? }`, what login and register resolve to. */
  datatype Reply = Reply(success: bool, error: Option<string>)

  const INVALID_LOGIN: string := "Invalid email or password."
  const LOGIN_FALLBACK: string := "Login failed due to a server error."
  const REGISTER_FALLBACK: string := "Registration failed."

  /** The invariant every transition but one keeps: authenticated exactly when a user is set. */
  predicate Consistent(s: AuthState) {
    s.isAuthenticated <==> s.user.Some?
  }

  /** What happened to the store call a transition made. */
  datatype Outcome<T> = Returned(value: T) | Threw(message: string)

  /** `e.message || fallback`: an empty (or missing) message gives the fallback. */
  function ErrorText(message: string, fallback: string): (r: string)
    ensures r != ""  || fallback == ""
    ensures message != "" ==> r == message
  {
    if message != "" then message else fallback
  }

  /** The write a transition makes to `session_user`. */
  datatype SessionWrite = KeepSession | SetSession(account: Account) | RemoveSession

  /** A transition's new state, its write to `session_user` and its reply. */
  datatype Step = Step(state: AuthState, session: SessionWrite, reply: Reply)

  function ApplySession(stored: Option<Account>, w: SessionWrite): Option<Account> {
    match w
    case KeepSession => stored
    case SetSession(a) => Some(a)
    case RemoveSession => None
  }

  /** The mount effect: a stored `session_user` signs its account in. */
  function Restore(s: AuthState, stored: Option<Account>): (r: AuthState)
    ensures stored.Some? ==> r == AuthState(stored, true)
    ensures stored.None? ==> r == s
  {
    if stored.Some? then AuthState(stored, true) else s
  }

  /** `login`, given what `db.login` did. */
  function LoginStep(s: AuthState, lookup: Outcome<Option<Account>>): (r: Step)
    ensures r.reply.success <==> lookup.Returned? && lookup.value.Some?
    ensures r.reply.success ==> r.state == AuthState(lookup.value, true) && r.session == SetSession(lookup.value.value)
    ensures !r.reply.success ==> r.state == s && r.session == KeepSession
    ensures lookup == Returned(None) ==> r.reply.error == Some(INVALID_LOGIN)
    ensures lookup.Threw? ==> r.reply.error == Some(ErrorText(lookup.message, LOGIN_FALLBACK))
  {
    match lookup
    case Returned(Some(u)) => Step(AuthState(Some(u), true), SetSession(u), Reply(true, None))
    case Returned(None) => Step(s, KeepSession, Reply(false, Some(INVALID_LOGIN)))
    case Threw(m) => Step(s, KeepSession, Reply(false, Some(ErrorText(m, LOGIN_FALLBACK))))
  }

  /** The fields the registration form supplies: a `User` without id, role and createdAt. */
  datatype RegisterInput = RegisterInput(name: string, email: string, password: Option<string>, phone: Option<string>)

  /** The record register builds: the input's fields, the id `user-<stamp>`, role 'user', created `now`. */
  function NewUser(input: RegisterInput, stamp: string, now: string): (a: Account)
    ensures a.id == "user-" + stamp && a.role == UserRole && a.createdAt == now
    ensures a.name == input.name && a.email == input.email
    ensures a.password == input.password && a.phone == input.phone
    ensures IsUserRecord(a)
  {
    MakeUser("user-" + stamp, input.name, input.email, input.password, UserRole, input.phone, now)
  }

  /** `register`, given the new record and what `db.addUser` did. */
  function RegisterStep(s: AuthState, newUser: Account, added: Outcome<()>): (r: Step)
    ensures r.reply.success <==> added.Returned?
    ensures added.Returned? ==> r.state == AuthState(Some(newUser), true) && r.session == SetSession(newUser)
    ensures added.Threw? ==> r.state == s && r.session == KeepSession
    ensures added.Threw? ==> r.reply.error == Some(ErrorText(added.message, REGISTER_FALLBACK))
  {
    match added
    case Returned(_) => Step(AuthState(Some(newUser), true), SetSession(newUser), Reply(true, None))
    case Threw(m) => Step(s, KeepSession, Reply(false, Some(ErrorText(m, REGISTER_FALLBACK))))
  }

  /** `logout`. */
  function LogoutStep(s: AuthState): (r: Step)
    ensures r.state == INITIAL && r.session == RemoveSession
  {
    Step(AuthState(None, false), RemoveSession, Reply(true, None))
  }

  /** `updateProfile`: the user is replaced and `isAuthenticated` is left alone. */
  function UpdateProfileStep(s: AuthState, u: Account): (r: Step)
    ensures r.state.user == Some(u) && r.state.isAuthenticated == s.isAuthenticated
    ensures r.session == SetSession(u)
  {
    Step(s.(user := Some(u)), SetSession(u), Reply(true, None))
  }

  /** Starting, restoring, login, register and logout keep the invariant. */
  lemma TransitionsKeepConsistent(s: AuthState, stored: Option<Account>, lookup: Outcome<Option<Account>>,
                                  newUser: Account, added: Outcome<()>)
    requires Consistent(s)
    ensures Consistent(INITIAL)
    ensures Consistent(Restore(s, stored))
    ensures Consistent(LoginStep(s, lookup).state)
    ensures Consistent(RegisterStep(s, newUser, added).state)
    ensures Consistent(LogoutStep(s).state)
  {
  }

  /**
   * `updateProfile` keeps the invariant exactly when someone is signed in: called while signed
   * out it sets a user but leaves `isAuthenticated` false.
   */
  lemma UpdateProfileConsistency(s: AuthState, u: Account)
    requires Consistent(s)
    ensures Consistent(UpdateProfileStep(s, u).state) <==> s.isAuthenticated
  {
  }

  /** After any successful sign-in the stored session and the state's user agree. */
  lemma SessionMatchesUser(s: AuthState, stored: Option<Account>, lookup: Outcome<Option<Account>>)
    requires LoginStep(s, lookup).reply.success
    ensures ApplySession(stored, LoginStep(s, lookup).session) == LoginStep(s, lookup).state.user
  {
  }

  /** The provider: the React state `auth` and the `session_user` storage key. */
  class AuthProvider {
    var auth: AuthState
    var sessionUser: Option<Account>

    /** Mounting with `stored` under `session_user`: the initial state, before the effect runs. */
    constructor (stored: Option<Account>)
      ensures auth == INITIAL && sessionUser == stored
    {
      auth := INITIAL;
      sessionUser := stored;
    }

    /** The mount effect. */
    method RestoreSession()
      modifies this
      ensures auth == Restore(old(auth), sessionUser) && sessionUser == old(sessionUser)
    {
      if sessionUser.Some? {
        auth := AuthState(sessionUser, true);
      }
    }

    /** Applies a transition's state and storage write. */
    method Apply(step: Step)
      modifies this
      ensures auth == step.state && sessionUser == ApplySession(old(sessionUser), step.session)
    {
      auth := step.state;
      match step.session {
        case KeepSession =>
        case SetSession(a) => sessionUser := Some(a);
        case RemoveSession => sessionUser := None;
      }
    }

    /** `login` against the in-memory store, which never throws. */
    method Login(db: Store, email: string, password: string) returns (reply: Reply)
      modifies this, db
      ensures var step := LoginStep(old(auth), Returned(FindAccount(old(db.UsersView()) + old(db.DoctorsView()), email, password)));
        auth == step.state && sessionUser == ApplySession(old(sessionUser), step.session) && reply == step.reply
      ensures db.users == Some(old(db.UsersView())) && db.doctors == Some(old(db.DoctorsView()))
      ensures db.appointments == old(db.appointments)
    {
      var found := db.Login(email, password);
      var step := LoginStep(auth, Returned(found));
      Apply(step);
      reply := step.reply;
    }

    /** `register` against the in-memory store: `stamp` is `Date.now()`, `now` the ISO time. */
    method Register(db: Store, input: RegisterInput, stamp: string, now: string) returns (reply: Reply)
      modifies this, db
      ensures var step := RegisterStep(old(auth), NewUser(input, stamp, now), Returned(()));
        auth == step.state && sessionUser == ApplySession(old(sessionUser), step.session) && reply == step.reply
      ensures db.users == Some(old(db.UsersView()) + [NewUser(input, stamp, now)])
      ensures db.doctors == old(db.doctors) && db.appointments == old(db.appointments)
    {
      var newUser := NewUser(input, stamp, now);
      db.AddUser(newUser);
      var step := RegisterStep(auth, newUser, Returned(()));
      Apply(step);
      reply := step.reply;
    }

    method Logout()
      modifies this
      ensures auth == INITIAL && sessionUser == None
    {
      Apply(LogoutStep(auth));
    }

    method UpdateProfile(u: Account)
      modifies this
      ensures auth == UpdateProfileStep(old(auth), u).state && sessionUser == Some(u)
    {
      Apply(UpdateProfileStep(auth, u));
    }
  }
}
