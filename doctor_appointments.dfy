/**
 * The doctor portal (also the admin's "all appointments" page): the appointment list, the status
 * actions on each appointment, the status badge colour and the doctor's own profile form.
 */
module DoctorAppointments {
  import opened Types
  import Weekdays
  import opened MockDatabase
  import opened AuthContext
  import opened FieldEdits

  // ---------------------------------------------------------------------------------------------
  // The list

  /** `all.filter(a => a.doctorId === id)`. */
  function ForDoctor(s: seq<Appointment>, id: string): (r: seq<Appointment>)
    ensures forall a :: a in r <==> a in s && a.doctorId == id
    ensures |r| <= |s|
  {
    if s == [] then []
    else if s[0].doctorId == id then [s[0]] + ForDoctor(s[1..], id)
    else ForDoctor(s[1..], id)
  }

  /** The filter keeps the stored order: it distributes over concatenation. */
  lemma {:induction false} ForDoctorConcat(s: seq<Appointment>, t: seq<Appointment>, id: string)
    ensures ForDoctor(s + t, id) == ForDoctor(s, id) + ForDoctor(t, id)
  {
    if s == [] {
      assert s + t == t;
    } else {
      assert (s + t)[1..] == s[1..] + t;
      ForDoctorConcat(s[1..], t, id);
    }
  }

  /** The appointments the page lists before reversing: all of them for an admin, else the user's own. */
  function Selected(user: Account, all: seq<Appointment>): seq<Appointment> {
    if user.role == AdminRole then all else ForDoctor(all, user.id)
  }

  /** The list the page shows: the selection, newest first. */
  function DoctorView(user: Account, all: seq<Appointment>): seq<Appointment> {
    Reverse(Selected(user, all))
  }

  /** An admin sees every appointment; anyone else sees exactly those booked with them. */
  lemma DoctorViewMembership(user: Account, all: seq<Appointment>, a: Appointment)
    ensures a in DoctorView(user, all) <==> a in all && (user.role == AdminRole || a.doctorId == user.id)
  {
    ReverseMembership(Selected(user, all), a);
  }

  /** Entry `k` of the list is the `k`-th newest selected appointment. */
  lemma DoctorViewOrder(user: Account, all: seq<Appointment>, k: nat)
    requires k < |Selected(user, all)|
    ensures |DoctorView(user, all)| == |Selected(user, all)|
    ensures DoctorView(user, all)[k] == Selected(user, all)[|Selected(user, all)| - 1 - k]
  {
    ReverseAt(Selected(user, all), k);
  }

  /** A booking added later is listed earlier: appending puts it at the head of the list. */
  lemma NewestFirst(user: Account, all: seq<Appointment>, apt: Appointment)
    requires user.role == AdminRole || apt.doctorId == user.id
    ensures DoctorView(user, all + [apt]) == [apt] + DoctorView(user, all)
  {
    if user.role != AdminRole {
      ForDoctorConcat(all, [apt], user.id);
      assert ForDoctor([apt], user.id) == [apt];
    }
    var s := Selected(user, all);
    assert Selected(user, all + [apt]) == s + [apt];
    ReverseAppend(s, apt);
  }

  /** Reversing `s + [x]` puts `x` first. */
  lemma {:induction false} ReverseAppend<T>(s: seq<T>, x: T)
    ensures Reverse(s + [x]) == [x] + Reverse(s)
  {
    if s == [] {
      assert s + [x] == [x];
    } else {
      assert (s + [x])[1..] == s[1..] + [x];
      ReverseAppend(s[1..], x);
    }
  }

  /** `myApts.reverse()`: reverses the array in place. */
  method ReverseInPlace(a: array<Appointment>)
    modifies a
    ensures a[..] == Reverse(old(a[..]))
  {
    ghost var orig := a[..];
    var i := 0;
    var j := a.Length - 1;
    while i < j
      invariant 0 <= i <= a.Length && j == a.Length - 1 - i
      invariant i <= j + 1
      invariant forall k :: 0 <= k < a.Length ==> a[k] == orig[if k < i || j < k then a.Length - 1 - k else k]
      decreases j - i
    {
      a[i], a[j] := a[j], a[i];
      i := i + 1;
      j := j - 1;
    }
    forall k | 0 <= k < a.Length
      ensures a[k] == Reverse(orig)[k]
    {
      ReverseAt(orig, k);
    }
  }

  // ---------------------------------------------------------------------------------------------
  // Status actions and badge

  /** The status each button on an appointment sets: Decline and Approve while pending, Mark Complete once approved. */
  function OfferedActions(status: Status): (r: seq<Status>)
    ensures status == Pending ==> r == [Cancelled, Approved]
    ensures status == Approved ==> r == [Completed]
    ensures status == Completed || status == Cancelled ==> r == []
  {
    match status
    case Pending => [Cancelled, Approved]
    case Approved => [Completed]
    case Completed => []
    case Cancelled => []
  }

  /** How far along its life an appointment is. */
  function Stage(status: Status): nat {
    match status
    case Pending => 0
    case Approved => 1
    case Completed => 2
    case Cancelled => 2
  }

  /** Every offered action moves the appointment strictly forward. */
  lemma OfferedMovesForward(from: Status, to: Status)
    requires to in OfferedActions(from)
    ensures Stage(from) < Stage(to)
  {
  }

  /** A run of statuses that the buttons alone could produce, one press at a time. */
  ghost predicate OfferedRun(run: seq<Status>) {
    forall k :: 0 < k < |run| ==> run[k] in OfferedActions(run[k - 1])
  }

  /** With the buttons alone an appointment changes status at most twice. */
  lemma {:induction false} OfferedRunsAreShort(run: seq<Status>)
    requires OfferedRun(run)
    ensures |run| <= 3
  {
    if |run| > 3 {
      OfferedMovesForward(run[0], run[1]);
      OfferedMovesForward(run[1], run[2]);
      OfferedMovesForward(run[2], run[3]);
    }
  }

  /** The store applies any status to any appointment, including moves no button offers. */
  lemma StoreIgnoresOfferedActions(s: seq<Appointment>, id: string, status: Status)
    ensures forall k :: 0 <= k < |s| && s[k].id == id && status !in OfferedActions(s[k].status) ==>
      SetStatusById(s, id, status)[k] == s[k].(status := status)
  {
  }

  const GREEN: string := "bg-green-100 text-green-800"
  const RED: string := "bg-red-100 text-red-800"
  const BLUE: string := "bg-blue-100 text-blue-800"
  const YELLOW: string := "bg-yellow-100 text-yellow-800"

  /** `getStatusColor`. */
  function StatusColor(status: string): (r: string)
    ensures status == "approved" ==> r == GREEN
    ensures status == "cancelled" ==> r == RED
    ensures status == "completed" ==> r == BLUE
    ensures r == YELLOW <==> status != "approved" && status != "cancelled" && status != "completed"
  {
    if status == "approved" then GREEN
    else if status == "cancelled" then RED
    else if status == "completed" then BLUE
    else YELLOW
  }

  /** The four statuses get four different colours, pending the default one. */
  lemma StatusColorsDistinct()
    ensures StatusColor(StatusName(Pending)) == YELLOW
    ensures forall s, t :: s != t ==> StatusColor(StatusName(s)) != StatusColor(StatusName(t))
  {
  }

  // ---------------------------------------------------------------------------------------------
  // The profile form

  /** `user?.role === 'doctor'`. */
  predicate IsDoctorUser(user: Option<Account>) {
    user.Some? && user.value.role == DoctorRole
  }

  /** The form's starting contents: a copy of the user with `availableDays || []`. */
  function InitialProfile(user: Account): Account {
    user.(availableDays := Some(user.availableDays.GetOr([])))
  }

  /**
   * `{ ...user, ...profileData }`. The form state starts as `{}` (here `None`) and, for a doctor,
   * becomes a copy of the user holding every key the user has; so the merge is the form's contents.
   */
  function SavedProfile(user: Account, profileData: Option<Account>): Account {
    profileData.GetOr(user)
  }

  /** The inputs of the profile modal: name, specialization, experience, phone and the two hours. */
  predicate ModalEdit(e: Edit) {
    e.TextEdit? ==> e.field != PasswordField
  }

  /** What a doctor saves after a run of edits: the user, with every edited field overriding. */
  lemma SavedKeepsUneditedFields(user: Account, edits: seq<Edit>, f: TextField)
    requires !EditsText(edits, f)
    ensures var saved := SavedProfile(user, Some(ApplyEdits(InitialProfile(user), edits)));
      TextOf(saved, f) == TextOf(user, f) && saved.id == user.id && saved.role == user.role
      && saved.createdAt == user.createdAt
  {
    UneditedFieldsKept(InitialProfile(user), edits, f);
  }

  /** The page's state. */
  class DoctorPortal {
    var appointments: seq<Appointment>
    /** `profileData`; `None` is the initial `{}`. */
    var profileData: Option<Account>
    var isProfileOpen: bool

    constructor ()
      ensures appointments == [] && profileData == None && !isProfileOpen
    {
      appointments := [];
      profileData := None;
      isProfileOpen := false;
    }

    /** `fetchAppointments`: with a user, reads the table and shows the user's selection newest first. */
    method FetchAppointments(db: Store, user: Option<Account>)
      modifies this, db
      ensures user.Some? ==> appointments == DoctorView(user.value, old(db.AppointmentsView()))
      ensures user.Some? ==> db.appointments == Some(old(db.AppointmentsView()))
      ensures user.None? ==> appointments == old(appointments) && db.appointments == old(db.appointments)
      ensures db.users == old(db.users) && db.doctors == old(db.doctors)
      ensures profileData == old(profileData) && isProfileOpen == old(isProfileOpen)
    {
      if user.Some? {
        var all := db.GetAppointments();
        var mine := Selected(user.value, all);
        var arr := new Appointment[|mine|](k requires 0 <= k < |mine| => mine[k]);
        assert arr[..] == mine;
        ReverseInPlace(arr);
        appointments := arr[..];
      }
    }

    /** The mount effect: fetch, and give a doctor a copy of their record to edit. */
    method Mount(db: Store, user: Option<Account>)
      modifies this, db
      ensures user.Some? ==> appointments == DoctorView(user.value, old(db.AppointmentsView()))
      ensures user.None? ==> appointments == old(appointments)
      ensures profileData == if IsDoctorUser(user) then Some(InitialProfile(user.value)) else old(profileData)
      ensures isProfileOpen == old(isProfileOpen)
      ensures db.users == old(db.users) && db.doctors == old(db.doctors)
    {
      FetchAppointments(db, user);
      if IsDoctorUser(user) {
        profileData := Some(InitialProfile(user.value));
      }
    }

    /** One store status update, then a fresh read of the list. */
    method HandleStatusChange(db: Store, user: Option<Account>, id: string, status: Status)
      modifies this, db
      ensures db.appointments == Some(SetStatusById(old(db.AppointmentsView()), id, status))
      ensures user.Some? ==> appointments == DoctorView(user.value, SetStatusById(old(db.AppointmentsView()), id, status))
      ensures user.None? ==> appointments == old(appointments)
      ensures db.users == old(db.users) && db.doctors == old(db.doctors)
    {
      db.UpdateAppointmentStatus(id, status);
      FetchAppointments(db, user);
    }

    /** `toggleDay`, reachable from the profile form, which only a doctor with a copied record sees. */
    method ToggleDay(day: string)
      requires profileData.Some?
      modifies this
      ensures profileData == Some(old(profileData.value).(availableDays :=
        Some(Weekdays.Toggled(old(profileData.value.availableDays.GetOr([])), day))))
      ensures appointments == old(appointments) && isProfileOpen == old(isProfileOpen)
    {
      var days := Weekdays.ToggleDay(profileData.value.availableDays.GetOr([]), day);
      profileData := Some(profileData.value.(availableDays := Some(days)));
    }

    /** One input of the profile modal changes; the modal has no email and no password input. */
    method EditProfile(e: Edit)
      requires profileData.Some?
      requires ModalEdit(e)
      modifies this
      ensures profileData == Some(ApplyEdit(old(profileData.value), e))
      ensures profileData.value.email == old(profileData.value.email)
      ensures profileData.value.password == old(profileData.value.password)
      ensures appointments == old(appointments) && isProfileOpen == old(isProfileOpen)
    {
      profileData := Some(ApplyEdit(profileData.value, e));
    }

    /** `saveProfile`: a doctor's merged record goes to the store and the session; nobody else writes. */
    method SaveProfile(db: Store, session: AuthProvider)
      modifies this, db, session
      ensures var user := old(session.auth.user);
        if IsDoctorUser(user) then
          var saved := SavedProfile(user.value, old(profileData));
          && db.doctors == Some(ReplaceById(old(db.DoctorsView()), saved))
          && session.auth == old(session.auth).(user := Some(saved)) && session.sessionUser == Some(saved)
          && !isProfileOpen
        else
          db.doctors == old(db.doctors) && session.auth == old(session.auth)
          && session.sessionUser == old(session.sessionUser) && isProfileOpen == old(isProfileOpen)
      ensures db.users == old(db.users) && db.appointments == old(db.appointments)
      ensures appointments == old(appointments) && profileData == old(profileData)
    {
      var user := session.auth.user;
      if !IsDoctorUser(user) {
        return;
      }
      var saved := SavedProfile(user.value, profileData);
      db.UpdateDoctor(saved);
      session.UpdateProfile(saved);
      isProfileOpen := false;
    }
  }
}
