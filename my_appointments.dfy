/** The patient's list of their own appointments, newest first. */
module MyAppointments {
  import opened Types
  import DoctorAppointments

  /** `all.filter(a => a.userId === id)`. */
  function ForPatient(s: seq<Appointment>, id: string): (r: seq<Appointment>)
    ensures forall a :: a in r <==> a in s && a.userId == id
    ensures |r| <= |s|
  {
    if s == [] then []
    else if s[0].userId == id then [s[0]] + ForPatient(s[1..], id)
    else ForPatient(s[1..], id)
  }

  /** The list shown: nothing without a user, else the user's appointments in reverse stored order. */
  function PatientView(user: Option<Account>, all: seq<Appointment>): seq<Appointment> {
    if user.None? then [] else Reverse(ForPatient(all, user.value.id))
  }

  /** The list holds exactly the user's stored appointments, and nothing without a user. */
  lemma PatientViewMembership(user: Option<Account>, all: seq<Appointment>, a: Appointment)
    ensures a in PatientView(user, all) <==> user.Some? && a in all && a.userId == user.value.id
  {
    if user.Some? {
      ReverseMembership(ForPatient(all, user.value.id), a);
    }
  }

  /** Entry `k` of the list is the user's `k`-th most recently stored appointment. */
  lemma PatientViewOrder(user: Account, all: seq<Appointment>, k: nat)
    requires k < |ForPatient(all, user.id)|
    ensures |PatientView(Some(user), all)| == |ForPatient(all, user.id)|
    ensures PatientView(Some(user), all)[k] == ForPatient(all, user.id)[|ForPatient(all, user.id)| - 1 - k]
  {
    ReverseAt(ForPatient(all, user.id), k);
  }

  /** A patient's new booking appears at the top of their list. */
  lemma {:induction false} NewBookingOnTop(user: Account, all: seq<Appointment>, apt: Appointment)
    requires apt.userId == user.id
    ensures PatientView(Some(user), all + [apt]) == [apt] + PatientView(Some(user), all)
  {
    ForPatientAppend(all, apt, user.id);
    DoctorAppointments.ReverseAppend(ForPatient(all, user.id), apt);
  }

  /** Filtering after an append of a matching appointment appends it to the filtered list. */
  lemma {:induction false} ForPatientAppend(s: seq<Appointment>, apt: Appointment, id: string)
    requires apt.userId == id
    ensures ForPatient(s + [apt], id) == ForPatient(s, id) + [apt]
  {
    if s == [] {
      assert s + [apt] == [apt];
    } else {
      assert (s + [apt])[1..] == s[1..] + [apt];
      ForPatientAppend(s[1..], apt, id);
    }
  }

  /** Only a pending appointment shows the waiting-for-approval note. */
  predicate ShowsWaitingNote(a: Appointment) {
    a.status == Pending
  }

  /** The badge classes of this page: pending yellow, approved green, cancelled red, otherwise blue. */
  function PatientBadge(status: string): string {
    if status == "pending" then DoctorAppointments.YELLOW
    else if status == "approved" then DoctorAppointments.GREEN
    else if status == "cancelled" then DoctorAppointments.RED
    else DoctorAppointments.BLUE
  }

  /** For the four statuses the patient badge and the doctor portal badge agree. */
  lemma BadgesAgree(status: Status)
    ensures PatientBadge(StatusName(status)) == DoctorAppointments.StatusColor(StatusName(status))
  {
  }

  /** Whenever the waiting note shows, the doctor portal still offers an action on the appointment. */
  lemma PendingOnlyWaits(a: Appointment)
    ensures ShowsWaitingNote(a) ==> DoctorAppointments.OfferedActions(a.status) != []
  {
  }
}
