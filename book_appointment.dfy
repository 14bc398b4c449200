/** The patient's booking form: pick a doctor, a date, a time and a reason, and submit. */
module BookAppointment {
  import opened Types
  import opened MockDatabase
  import ManageDoctors

  /** The booking record: patient fields from the user, doctor fields from the doctor, the rest verbatim. */
  function Booking(user: Account, doc: Account, date: string, time: string, reason: string,
                   stamp: string, now: string): (a: Appointment)
    ensures a.id == "apt-" + stamp && a.status == Pending && a.createdAt == now
    ensures a.userId == user.id && a.userName == user.name
    ensures a.doctorId == doc.id && a.doctorName == doc.name
    ensures a.date == date && a.time == time && a.reason == reason
  {
    Appointment("apt-" + stamp, user.id, user.name, doc.id, doc.name, date, time, reason, Pending, now)
  }

  /** A doctor's working days and hours play no part in a booking: any date and time is accepted. */
  lemma BookingIgnoresAvailability(user: Account, doc: Account, date: string, time: string, reason: string,
                                   stamp: string, now: string, days: Option<seq<string>>,
                                   start: Option<string>, end: Option<string>)
    ensures Booking(user, doc, date, time, reason, stamp, now)
         == Booking(user, doc.(availableDays := days, availableTimeStart := start, availableTimeEnd := end),
                    date, time, reason, stamp, now)
  {
  }

  /** The page's state. */
  class BookingPage {
    var doctors: seq<Account>
    var selectedDoc: string
    var date: string
    var time: string
    var reason: string

    constructor ()
      ensures doctors == [] && selectedDoc == "" && date == "" && time == "" && reason == ""
    {
      doctors := [];
      selectedDoc := "";
      date := "";
      time := "";
      reason := "";
    }

    /** The mount effect: load the doctor list. */
    method Mount(db: Store)
      modifies this, db
      ensures doctors == old(db.DoctorsView()) && db.doctors == Some(doctors)
      ensures db.users == old(db.users) && db.appointments == old(db.appointments)
      ensures selectedDoc == old(selectedDoc) && date == old(date) && time == old(time) && reason == old(reason)
    {
      doctors := db.GetDoctors();
    }

    /** `handleSubmit`: without a user or a loaded doctor matching the selection nothing is written. */
    method HandleSubmit(db: Store, user: Option<Account>, stamp: string, now: string)
      modifies db
      ensures var doc := ManageDoctors.FindById(doctors, selectedDoc);
        if doc.None? || user.None? then
          db.appointments == old(db.appointments)
        else
          db.appointments == Some(old(db.AppointmentsView()) + [Booking(user.value, doc.value, date, time, reason, stamp, now)])
      ensures db.users == old(db.users) && db.doctors == old(db.doctors)
    {
      var doc := ManageDoctors.FindById(doctors, selectedDoc);
      if doc.None? || user.None? {
        return;
      }
      db.AddAppointment(Booking(user.value, doc.value, date, time, reason, stamp, now));
    }
  }
}
