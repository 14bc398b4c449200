/** The records the application keeps: accounts (patients, doctors, admins) and appointments. */
module Types {

  datatype Option<T> = None | Some(value: T) {
    /** `x || fallback` for an optional field */
    function GetOr(fallback: T): T {
      if Some? then value else fallback
    }
  }

  /** `field || fallback` on an optional text field: a missing or empty value gives the fallback. */
  function OrElse(o: Option<string>, fallback: string): string {
    if o.Some? && o.value != "" then o.value else fallback
  }

  /** The three roles: 'user' (a patient), 'doctor' and 'admin'. */
  datatype Role = UserRole | DoctorRole | AdminRole

  /** An appointment status: 'pending', 'approved', 'completed' or 'cancelled'. */
  datatype Status = Pending | Approved | Completed | Cancelled

  /** The status as the string the application stores and prints. */
  function StatusName(s: Status): string {
    match s
    case Pending => "pending"
    case Approved => "approved"
    case Completed => "completed"
    case Cancelled => "cancelled"
  }

  /**
   * An account record. A `User` has the first seven fields; a `Doctor` extends it with the five
   * doctor fields. Both live in plain JavaScript objects that the pages copy, spread and cast
   * freely, so one record type carries all twelve fields and the doctor fields are optional here.
   */
  datatype Account = Account(
    id: string,
    name: string,
    email: string,
    password: Option<string>,
    role: Role,
    phone: Option<string>,
    createdAt: string,
    specialization: Option<string>,
    experience: Option<int>,
    availableDays: Option<seq<string>>,
    availableTimeStart: Option<string>,
    availableTimeEnd: Option<string>)

  /** What the `Doctor` type promises on top of `User`: all five doctor fields are present. */
  predicate IsDoctorRecord(a: Account) {
    && a.specialization.Some?
    && a.experience.Some?
    && a.availableDays.Some?
    && a.availableTimeStart.Some?
    && a.availableTimeEnd.Some?
  }

  /** A plain `User` record: none of the doctor fields is present. */
  predicate IsUserRecord(a: Account) {
    && a.specialization.None?
    && a.experience.None?
    && a.availableDays.None?
    && a.availableTimeStart.None?
    && a.availableTimeEnd.None?
  }

  /** A plain user record built from the seven `User` fields. */
  function MakeUser(id: string, name: string, email: string, password: Option<string>, role: Role,
                    phone: Option<string>, createdAt: string): (a: Account)
    ensures IsUserRecord(a) && a.id == id && a.email == email && a.role == role
    ensures a.name == name && a.password == password && a.phone == phone && a.createdAt == createdAt
  {
    Account(id, name, email, password, role, phone, createdAt, None, None, None, None, None)
  }

  /** An appointment record; `userName` and `doctorName` are snapshots taken at booking. */
  datatype Appointment = Appointment(
    id: string,
    userId: string,
    userName: string,
    doctorId: string,
    doctorName: string,
    date: string,
    time: string,
    reason: string,
    status: Status,
    createdAt: string)

  /** The number of elements of `s` whose status is `st`. */
  function CountStatus(s: seq<Appointment>, st: Status): (n: nat)
    ensures n <= |s|
  {
    if s == [] then 0 else (if s[0].status == st then 1 else 0) + CountStatus(s[1..], st)
  }

  /** Sequence reversal, as `Array.prototype.reverse` leaves an array. */
  function Reverse<T>(s: seq<T>): (r: seq<T>)
    ensures |r| == |s|
  {
    if s == [] then [] else Reverse(s[1..]) + [s[0]]
  }

  /** Element `k` of the reversal is element `|s| - 1 - k` of the original. */
  lemma {:induction false} ReverseAt<T>(s: seq<T>, k: nat)
    requires k < |s|
    ensures Reverse(s)[k] == s[|s| - 1 - k]
  {
    if k < |s| - 1 {
      ReverseAt(s[1..], k);
    }
  }

  /** Reversal keeps exactly the same elements. */
  lemma ReverseMembership<T>(s: seq<T>, x: T)
    ensures x in Reverse(s) <==> x in s
  {
    if x in s {
      var i :| 0 <= i < |s| && s[i] == x;
      ReverseAt(s, |s| - 1 - i);
    }
    if x in Reverse(s) {
      var k :| 0 <= k < |s| && Reverse(s)[k] == x;
      ReverseAt(s, k);
    }
  }

  /** Reversing twice gives back the original order. */
  lemma {:induction false} ReverseReverse<T>(s: seq<T>)
    ensures Reverse(Reverse(s)) == s
  {
    forall k | 0 <= k < |s| ensures Reverse(Reverse(s))[k] == s[k] {
      ReverseAt(Reverse(s), k);
      ReverseAt(s, |s| - 1 - k);
    }
  }

  /** `a.includes(b)` on strings: `b` occurs in `a` as a contiguous substring. */
  predicate Contains(a: string, b: string) {
    if |b| > |a| then false else a[..|b|] == b || Contains(a[1..], b)
  }

  /** `toLowerCase` on one character, for the ASCII letters. */
  function LowerChar(c: char): char {
    if 'A' <= c <= 'Z' then (c as int + 32) as char else c
  }

  /** `toLowerCase` on a string, for the ASCII letters. */
  function Lower(s: string): (r: string)
    ensures |r| == |s|
    ensures forall i :: 0 <= i < |s| ==> r[i] == LowerChar(s[i])
  {
    seq(|s|, i requires 0 <= i < |s| => LowerChar(s[i]))
  }

  /** JavaScript's `<` on strings: lexicographic order on characters. */
  predicate StringLess(a: string, b: string) {
    if a == [] then b != []
    else if b == [] then false
    else if a[0] != b[0] then a[0] < b[0]
    else StringLess(a[1..], b[1..])
  }
}
