/**
 * The in-memory record store behind the application. Three browser-storage keys, `db_users`,
 * `db_doctors` and `db_appointments`, each hold one table. A key with nothing stored is seeded by
 * the first read. Writers either push onto the loaded table or rebuild it with `map`/`filter`, then
 * store the result under the same key.
 */
module MockDatabase {
  import opened Types
  import opened SeedData

  /** `USE_BACKEND_API`: the exported `db` uses the HTTP client only when this is set. */
  const USE_BACKEND_API: bool := false

  /** The two implementations of the store interface. */
  datatype Backend = ApiDatabase | MockStore

  /** `db`: the store the pages talk to. */
  function Db(): (b: Backend)
    ensures b == MockStore
  {
    if USE_BACKEND_API then ApiDatabase else MockStore
  }

  // ---------------------------------------------------------------------------------------------
  // The table rewrites

  /** `table.map(r => r.id === x.id ? x : r)`: every record with `x`'s id is replaced by `x`. */
  function ReplaceById(s: seq<Account>, x: Account): (r: seq<Account>)
    ensures |r| == |s|
    ensures forall k :: 0 <= k < |s| ==> r[k] == (if s[k].id == x.id then x else s[k])
  {
    if s == [] then [] else [if s[0].id == x.id then x else s[0]] + ReplaceById(s[1..], x)
  }

  /** `table.filter(r => r.id !== id)`. */
  function RemoveById(s: seq<Account>, id: string): (r: seq<Account>)
    ensures forall a :: a in r <==> a in s && a.id != id
    ensures |r| <= |s|
  {
    if s == [] then []
    else if s[0].id == id then RemoveById(s[1..], id)
    else [s[0]] + RemoveById(s[1..], id)
  }

  /** `apts.map(a => a.id === id ? {...a, status} : a)`. */
  function SetStatusById(s: seq<Appointment>, id: string, status: Status): (r: seq<Appointment>)
    ensures |r| == |s|
    ensures forall k :: 0 <= k < |s| ==> r[k] == (if s[k].id == id then s[k].(status := status) else s[k])
  {
    if s == [] then []
    else [if s[0].id == id then s[0].(status := status) else s[0]] + SetStatusById(s[1..], id, status)
  }

  /** The test `u.email === email && u.password === password`; an account without a password never matches. */
  predicate Credentials(a: Account, email: string, password: string) {
    a.email == email && a.password == Some(password)
  }

  /** Position `k` holds the first account of `s` that matches the credentials. */
  predicate FirstMatchAt(s: seq<Account>, k: int, email: string, password: string) {
    && 0 <= k < |s|
    && Credentials(s[k], email, password)
    && forall j :: 0 <= j < k ==> !Credentials(s[j], email, password)
  }

  /** `all.find(...) || null`: the first account whose email and password both equal the inputs. */
  function FindAccount(s: seq<Account>, email: string, password: string): (r: Option<Account>)
    ensures r.None? <==> forall k :: 0 <= k < |s| ==> !Credentials(s[k], email, password)
    ensures r.Some? ==> exists k :: FirstMatchAt(s, k, email, password) && s[k] == r.value
  {
    if s == [] then None
    else if Credentials(s[0], email, password) then Some(s[0])
    else
      var r := FindAccount(s[1..], email, password);
      assert forall k :: FirstMatchAt(s[1..], k, email, password) ==> FirstMatchAt(s, k + 1, email, password);
      r
  }

  // ---------------------------------------------------------------------------------------------
  // The store

  /** The three storage keys. A field is `None` while nothing is stored under its key. */
  class Store {
    /** The `createdAt` stamped on every seed record: the time the module was loaded. */
    const loadTime: string
    var users: Option<seq<Account>>
    var doctors: Option<seq<Account>>
    var appointments: Option<seq<Appointment>>

    /** A fresh browser profile: nothing stored yet. */
    constructor (loadTime: string)
      ensures this.loadTime == loadTime
      ensures users == None && doctors == None && appointments == None
    {
      this.loadTime := loadTime;
      users := None;
      doctors := None;
      appointments := None;
    }

    /** What a read of `db_users` returns: the stored table, or the seed when nothing is stored. */
    function UsersView(): seq<Account>
      reads this
    {
      users.GetOr(InitialUsers(loadTime))
    }

    /** What a read of `db_doctors` returns. */
    function DoctorsView(): seq<Account>
      reads this
    {
      doctors.GetOr(SeedDoctors(loadTime))
    }

    /** What a read of `db_appointments` returns; its seed is the empty table. */
    function AppointmentsView(): seq<Appointment>
      reads this
    {
      appointments.GetOr([])
    }

    /** `getStorage('db_users', ...)`: a first read stores the seed and returns it. */
    method LoadUsers() returns (r: seq<Account>)
      modifies this
      ensures r == old(UsersView()) && users == Some(r)
      ensures doctors == old(doctors) && appointments == old(appointments)
    {
      if users.None? {
        users := Some(InitialUsers(loadTime));
      }
      r := users.value;
    }

    /** `getStorage('db_doctors', SEED_DOCTORS)`. */
    method LoadDoctors() returns (r: seq<Account>)
      modifies this
      ensures r == old(DoctorsView()) && doctors == Some(r)
      ensures users == old(users) && appointments == old(appointments)
    {
      if doctors.None? {
        doctors := Some(SeedDoctors(loadTime));
      }
      r := doctors.value;
    }

    /** `getStorage('db_appointments', [])`. */
    method LoadAppointments() returns (r: seq<Appointment>)
      modifies this
      ensures r == old(AppointmentsView()) && appointments == Some(r)
      ensures users == old(users) && doctors == old(doctors)
    {
      if appointments.None? {
        appointments := Some([]);
      }
      r := appointments.value;
    }

    method GetUsers() returns (r: seq<Account>)
      modifies this
      ensures r == old(UsersView()) && users == Some(r)
      ensures doctors == old(doctors) && appointments == old(appointments)
    {
      r := LoadUsers();
    }

    method GetDoctors() returns (r: seq<Account>)
      modifies this
      ensures r == old(DoctorsView()) && doctors == Some(r)
      ensures users == old(users) && appointments == old(appointments)
    {
      r := LoadDoctors();
    }

    method GetAppointments() returns (r: seq<Appointment>)
      modifies this
      ensures r == old(AppointmentsView()) && appointments == Some(r)
      ensures users == old(users) && doctors == old(doctors)
    {
      r := LoadAppointments();
    }

    /** Pushes `u` onto `db_users`; no id or email is checked. */
    method AddUser(u: Account)
      modifies this
      ensures users == Some(old(UsersView()) + [u])
      ensures doctors == old(doctors) && appointments == old(appointments)
    {
      var table := LoadUsers();
      users := Some(table + [u]);
    }

    method UpdateUser(u: Account)
      modifies this
      ensures users == Some(ReplaceById(old(UsersView()), u))
      ensures doctors == old(doctors) && appointments == old(appointments)
    {
      var table := LoadUsers();
      users := Some(ReplaceById(table, u));
    }

    /** Pushes `d` onto `db_doctors`; no id or email is checked. */
    method AddDoctor(d: Account)
      modifies this
      ensures doctors == Some(old(DoctorsView()) + [d])
      ensures users == old(users) && appointments == old(appointments)
    {
      var table := LoadDoctors();
      doctors := Some(table + [d]);
    }

    method UpdateDoctor(d: Account)
      modifies this
      ensures doctors == Some(ReplaceById(old(DoctorsView()), d))
      ensures users == old(users) && appointments == old(appointments)
    {
      var table := LoadDoctors();
      doctors := Some(ReplaceById(table, d));
    }

    method DeleteDoctor(id: string)
      modifies this
      ensures doctors == Some(RemoveById(old(DoctorsView()), id))
      ensures users == old(users) && appointments == old(appointments)
    {
      var table := LoadDoctors();
      doctors := Some(RemoveById(table, id));
    }

    /** Pushes `apt` onto `db_appointments`. */
    method AddAppointment(apt: Appointment)
      modifies this
      ensures appointments == Some(old(AppointmentsView()) + [apt])
      ensures users == old(users) && doctors == old(doctors)
    {
      var table := LoadAppointments();
      appointments := Some(table + [apt]);
    }

    /** Sets the status of every appointment with this id, whatever its current status. */
    method UpdateAppointmentStatus(id: string, status: Status)
      modifies this
      ensures appointments == Some(SetStatusById(old(AppointmentsView()), id, status))
      ensures users == old(users) && doctors == old(doctors)
    {
      var table := LoadAppointments();
      appointments := Some(SetStatusById(table, id, status));
    }

    method DeleteUser(id: string)
      modifies this
      ensures users == Some(RemoveById(old(UsersView()), id))
      ensures doctors == old(doctors) && appointments == old(appointments)
    {
      var table := LoadUsers();
      users := Some(RemoveById(table, id));
    }

    /** The first account, users before doctors, with exactly this email and password. */
    method Login(email: string, password: string) returns (r: Option<Account>)
      modifies this
      ensures r == FindAccount(old(UsersView()) + old(DoctorsView()), email, password)
      ensures users == Some(old(UsersView())) && doctors == Some(old(DoctorsView()))
      ensures appointments == old(appointments)
    {
      var us := LoadUsers();
      var ds := LoadDoctors();
      r := FindAccount(us + ds, email, password);
    }
  }

  // ---------------------------------------------------------------------------------------------
  // Properties of the rewrites

  /** Replacing a record whose id is not in the table leaves the table as it was. */
  lemma ReplaceUnknownId(s: seq<Account>, x: Account)
    requires forall a :: a in s ==> a.id != x.id
    ensures ReplaceById(s, x) == s
  {
    assert forall k :: 0 <= k < |s| ==> s[k] in s;
  }

  /** Replacing twice with the same record is replacing once. */
  lemma ReplaceIdempotent(s: seq<Account>, x: Account)
    ensures ReplaceById(ReplaceById(s, x), x) == ReplaceById(s, x)
  {
  }

  /** After a replace, every record with that id is the new record, and these are all the changes. */
  lemma ReplaceMembership(s: seq<Account>, x: Account, a: Account)
    ensures a in ReplaceById(s, x) <==> (a in s && a.id != x.id) || (a == x && exists k :: 0 <= k < |s| && s[k].id == x.id)
  {
    var r := ReplaceById(s, x);
    if a in r {
      var k :| 0 <= k < |r| && r[k] == a;
      if s[k].id != x.id { assert s[k] == a; }
    }
    if a in s && a.id != x.id {
      var k :| 0 <= k < |s| && s[k] == a;
      assert r[k] == a;
    }
  }

  /** Deleting distributes over the concatenation of two tables, so survivors keep their order. */
  lemma {:induction false} RemoveConcat(s: seq<Account>, t: seq<Account>, id: string)
    ensures RemoveById(s + t, id) == RemoveById(s, id) + RemoveById(t, id)
  {
    if s == [] {
      assert s + t == t;
    } else {
      assert (s + t)[1..] == s[1..] + t;
      RemoveConcat(s[1..], t, id);
    }
  }

  /** Deleting an id that is not in the table leaves the table as it was. */
  lemma {:induction false} RemoveUnknownId(s: seq<Account>, id: string)
    requires forall a :: a in s ==> a.id != id
    ensures RemoveById(s, id) == s
  {
    if s != [] {
      assert s[0] in s;
      assert forall a :: a in s[1..] ==> a in s;
      RemoveUnknownId(s[1..], id);
    }
  }

  /** Deleting twice is deleting once. */
  lemma RemoveIdempotent(s: seq<Account>, id: string)
    ensures RemoveById(RemoveById(s, id), id) == RemoveById(s, id)
  {
    RemoveUnknownId(RemoveById(s, id), id);
  }

  /** A status update that matches no appointment leaves the table as it was. */
  lemma SetStatusUnknownId(s: seq<Appointment>, id: string, status: Status)
    requires forall a :: a in s ==> a.id != id
    ensures SetStatusById(s, id, status) == s
  {
    assert forall k :: 0 <= k < |s| ==> s[k] in s;
  }

  /** Login looks at doctors only when no user account matches. */
  lemma {:induction false} LoginUsersFirst(users: seq<Account>, doctors: seq<Account>, email: string, password: string)
    ensures FindAccount(users + doctors, email, password)
         == if FindAccount(users, email, password).Some? then FindAccount(users, email, password)
            else FindAccount(doctors, email, password)
  {
    if users == [] {
      assert users + doctors == doctors;
    } else {
      assert (users + doctors)[1..] == users[1..] + doctors;
      LoginUsersFirst(users[1..], doctors, email, password);
    }
  }

  /** Login needs the exact email: an account whose email differs in any way is never returned. */
  lemma LoginExactEmail(s: seq<Account>, email: string, password: string)
    requires FindAccount(s, email, password).Some?
    ensures FindAccount(s, email, password).value.email == email
    ensures FindAccount(s, email, password).value.password == Some(password)
  {
  }
}
