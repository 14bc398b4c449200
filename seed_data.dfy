/**
 * The seed tables of the in-memory store: two patients and the admin in `db_users`, and
 * twenty-five doctors in `db_doctors`. Every seed record carries the time the module was loaded
 * (`new Date().toISOString()`) as its `createdAt`; that time is the parameter `t` here.
 */
module SeedData {
  import opened Types
  import Weekdays

  /** The literal part of one SEED_DOCTORS entry: everything but `createdAt`. */
  datatype DoctorRow = DoctorRow(id: string, name: string, email: string, specialization: string,
                                 experience: int, days: seq<string>, start: string, end: string,
                                 phone: string)

  const DOC_1: DoctorRow := DoctorRow("doc-1", "Dr. Sarah Smith", "sarah@gowthamhospital.com", "Cardiologist", 12, ["Mon", "Wed", "Fri"], "09:00", "14:00", "555-0101")
  const DOC_2: DoctorRow := DoctorRow("doc-2", "Dr. James Wilson", "james@gowthamhospital.com", "Dermatologist", 8, ["Tue", "Thu"], "10:00", "16:00", "555-0102")
  const DOC_3: DoctorRow := DoctorRow("doc-3", "Dr. Emily Chen", "emily@gowthamhospital.com", "Pediatrician", 10, ["Mon", "Tue", "Thu", "Fri"], "08:00", "15:00", "555-0103")
  const DOC_4: DoctorRow := DoctorRow("doc-4", "Dr. Michael Brown", "michael@gowthamhospital.com", "Neurologist", 15, ["Wed", "Thu", "Fri"], "10:00", "18:00", "555-0104")
  const DOC_5: DoctorRow := DoctorRow("doc-5", "Dr. Lisa Taylor", "lisa@gowthamhospital.com", "Gynecologist", 14, ["Mon", "Wed", "Sat"], "09:00", "13:00", "555-0105")
  const DOC_6: DoctorRow := DoctorRow("doc-6", "Dr. David Miller", "david@gowthamhospital.com", "Orthopedic Surgeon", 20, ["Tue", "Thu", "Fri"], "07:00", "15:00", "555-0106")
  const DOC_7: DoctorRow := DoctorRow("doc-7", "Dr. Jennifer Davis", "jennifer@gowthamhospital.com", "Psychiatrist", 9, ["Mon", "Tue", "Wed", "Thu"], "11:00", "19:00", "555-0107")
  const DOC_8: DoctorRow := DoctorRow("doc-8", "Dr. Robert Wilson", "robert@gowthamhospital.com", "General Physician", 25, ["Mon", "Tue", "Wed", "Thu", "Fri", "Sat"], "08:00", "20:00", "555-0108")
  const DOC_9: DoctorRow := DoctorRow("doc-9", "Dr. Maria Garcia", "maria@gowthamhospital.com", "Ophthalmologist", 7, ["Mon", "Wed", "Fri"], "09:00", "17:00", "555-0109")
  const DOC_10: DoctorRow := DoctorRow("doc-10", "Dr. William Anderson", "william@gowthamhospital.com", "ENT Specialist", 11, ["Tue", "Thu", "Sat"], "10:00", "14:00", "555-0110")
  const DOC_11: DoctorRow := DoctorRow("doc-11", "Dr. Linda Martinez", "linda@gowthamhospital.com", "Endocrinologist", 13, ["Mon", "Tue", "Thu"], "09:30", "16:30", "555-0111")
  const DOC_12: DoctorRow := DoctorRow("doc-12", "Dr. Richard Thomas", "richard@gowthamhospital.com", "Urologist", 16, ["Wed", "Fri", "Sat"], "08:00", "12:00", "555-0112")
  const DOC_13: DoctorRow := DoctorRow("doc-13", "Dr. Patricia Jackson", "patricia@gowthamhospital.com", "Oncologist", 18, ["Mon", "Wed", "Fri"], "10:00", "16:00", "555-0113")
  const DOC_14: DoctorRow := DoctorRow("doc-14", "Dr. Joseph White", "joseph@gowthamhospital.com", "Gastroenterologist", 14, ["Tue", "Thu"], "09:00", "17:00", "555-0114")
  const DOC_15: DoctorRow := DoctorRow("doc-15", "Dr. Karen Harris", "karen@gowthamhospital.com", "Pulmonologist", 12, ["Mon", "Tue", "Wed", "Thu", "Fri"], "13:00", "19:00", "555-0115")
  const DOC_16: DoctorRow := DoctorRow("doc-16", "Dr. Thomas Clark", "thomas@gowthamhospital.com", "Rheumatologist", 9, ["Wed", "Fri"], "08:30", "14:30", "555-0116")
  const DOC_17: DoctorRow := DoctorRow("doc-17", "Dr. Nancy Lewis", "nancy@gowthamhospital.com", "Nephrologist", 11, ["Mon", "Thu"], "10:00", "15:00", "555-0117")
  const DOC_18: DoctorRow := DoctorRow("doc-18", "Dr. Charles Robinson", "charles@gowthamhospital.com", "Radiologist", 6, ["Mon", "Tue", "Wed", "Thu", "Fri"], "08:00", "16:00", "555-0118")
  const DOC_19: DoctorRow := DoctorRow("doc-19", "Dr. Susan Walker", "susan@gowthamhospital.com", "Anesthesiologist", 19, ["Mon", "Tue", "Wed", "Thu", "Fri", "Sat"], "07:00", "19:00", "555-0119")
  const DOC_20: DoctorRow := DoctorRow("doc-20", "Dr. Christopher Hall", "christopher@gowthamhospital.com", "Plastic Surgeon", 15, ["Tue", "Thu"], "11:00", "17:00", "555-0120")
  const DOC_21: DoctorRow := DoctorRow("doc-21", "Dr. Jessica Allen", "jessica@gowthamhospital.com", "Pathologist", 8, ["Mon", "Wed", "Fri"], "09:00", "17:00", "555-0121")
  const DOC_22: DoctorRow := DoctorRow("doc-22", "Dr. Matthew Young", "matthew@gowthamhospital.com", "Sports Medicine", 7, ["Tue", "Thu", "Sat"], "08:00", "12:00", "555-0122")
  const DOC_23: DoctorRow := DoctorRow("doc-23", "Dr. Barbara King", "barbara@gowthamhospital.com", "Geriatrician", 22, ["Mon", "Wed", "Fri"], "10:00", "14:00", "555-0123")
  const DOC_24: DoctorRow := DoctorRow("doc-24", "Dr. Daniel Wright", "daniel@gowthamhospital.com", "Allergist", 10, ["Tue", "Thu"], "09:00", "16:00", "555-0124")
  const DOC_25: DoctorRow := DoctorRow("doc-25", "Dr. Ashley Scott", "ashley@gowthamhospital.com", "Hematologist", 14, ["Mon", "Wed", "Fri"], "08:00", "16:00", "555-0125")

  /** The SEED_DOCTORS entries, in source order. */
  const SEED_DOCTOR_ROWS: seq<DoctorRow> := [
    DOC_1, DOC_2, DOC_3, DOC_4, DOC_5, DOC_6, DOC_7, DOC_8, DOC_9, DOC_10, DOC_11, DOC_12, DOC_13, DOC_14, DOC_15, DOC_16, DOC_17, DOC_18, DOC_19, DOC_20, DOC_21, DOC_22, DOC_23, DOC_24, DOC_25
  ]

  /** One seed doctor: role 'doctor', password 'password', created at `t`. */
  function DoctorAccount(row: DoctorRow, t: string): (a: Account)
    ensures IsDoctorRecord(a) && a.role == DoctorRole && a.id == row.id && a.email == row.email
    ensures a.availableDays == Some(row.days) && a.createdAt == t
    ensures a.availableTimeStart == Some(row.start) && a.availableTimeEnd == Some(row.end)
  {
    Account(row.id, row.name, row.email, Some("password"), DoctorRole, Some(row.phone), t,
            Some(row.specialization), Some(row.experience), Some(row.days), Some(row.start), Some(row.end))
  }

  /** The doctor accounts of `rows`, in order. */
  function DoctorAccounts(rows: seq<DoctorRow>, t: string): (r: seq<Account>)
    ensures |r| == |rows|
    ensures forall k :: 0 <= k < |rows| ==> r[k] == DoctorAccount(rows[k], t)
  {
    if rows == [] then [] else [DoctorAccount(rows[0], t)] + DoctorAccounts(rows[1..], t)
  }

  /** SEED_DOCTORS, the initial value of `db_doctors`. */
  function SeedDoctors(t: string): seq<Account> {
    DoctorAccounts(SEED_DOCTOR_ROWS, t)
  }

  /** SEED_ADMIN. */
  function SeedAdmin(t: string): Account {
    MakeUser("admin-1", "System Admin", "admin@gowthamhospital.com", Some("password"), AdminRole,
             Some("000-000-0000"), t)
  }

  /** SEED_USERS. */
  function SeedUsers(t: string): seq<Account> {
    [ MakeUser("user-1", "John Doe", "john@gowthamhospital.com", Some("password"), UserRole, Some("555-1234"), t),
      MakeUser("user-2", "Jane Smith", "jane@gowthamhospital.com", Some("password"), UserRole, Some("555-5678"), t) ]
  }

  /** The initial value of `db_users`: `[...SEED_USERS, SEED_ADMIN]`. */
  function InitialUsers(t: string): seq<Account> {
    SeedUsers(t) + [SeedAdmin(t)]
  }

  /** Every seed account, the `db_users` seed first. */
  function AllSeedAccounts(t: string): seq<Account> {
    InitialUsers(t) + SeedDoctors(t)
  }

  /** Two rows share neither id nor email. */
  predicate Apart(a: DoctorRow, b: DoctorRow) {
    a.id != b.id && a.email != b.email
  }

  /** A row's days are canonical and its working hours start before they end. */
  ghost predicate RowWellFormed(row: DoctorRow) {
    Weekdays.Canonical(row.days) && StringLess(row.start, row.end)
  }

  lemma RowApart0()
    ensures forall j :: 0 < j < |SEED_DOCTOR_ROWS| ==> Apart(SEED_DOCTOR_ROWS[0], SEED_DOCTOR_ROWS[j])
  {
  }

  lemma RowApart1()
    ensures forall j :: 1 < j < |SEED_DOCTOR_ROWS| ==> Apart(SEED_DOCTOR_ROWS[1], SEED_DOCTOR_ROWS[j])
  {
  }

  lemma RowApart2()
    ensures forall j :: 2 < j < |SEED_DOCTOR_ROWS| ==> Apart(SEED_DOCTOR_ROWS[2], SEED_DOCTOR_ROWS[j])
  {
  }

  lemma RowApart3()
    ensures forall j :: 3 < j < |SEED_DOCTOR_ROWS| ==> Apart(SEED_DOCTOR_ROWS[3], SEED_DOCTOR_ROWS[j])
  {
  }

  lemma RowApart4()
    ensures forall j :: 4 < j < |SEED_DOCTOR_ROWS| ==> Apart(SEED_DOCTOR_ROWS[4], SEED_DOCTOR_ROWS[j])
  {
  }

  lemma RowApart5()
    ensures forall j :: 5 < j < |SEED_DOCTOR_ROWS| ==> Apart(SEED_DOCTOR_ROWS[5], SEED_DOCTOR_ROWS[j])
  {
  }

  lemma RowApart6()
    ensures forall j :: 6 < j < |SEED_DOCTOR_ROWS| ==> Apart(SEED_DOCTOR_ROWS[6], SEED_DOCTOR_ROWS[j])
  {
  }

  lemma RowApart7()
    ensures forall j :: 7 < j < |SEED_DOCTOR_ROWS| ==> Apart(SEED_DOCTOR_ROWS[7], SEED_DOCTOR_ROWS[j])
  {
  }

  lemma RowApart8()
    ensures forall j :: 8 < j < |SEED_DOCTOR_ROWS| ==> Apart(SEED_DOCTOR_ROWS[8], SEED_DOCTOR_ROWS[j])
  {
  }

  lemma RowApart9()
    ensures forall j :: 9 < j < |SEED_DOCTOR_ROWS| ==> Apart(SEED_DOCTOR_ROWS[9], SEED_DOCTOR_ROWS[j])
  {
  }

  lemma RowApart10()
    ensures forall j :: 10 < j < |SEED_DOCTOR_ROWS| ==> Apart(SEED_DOCTOR_ROWS[10], SEED_DOCTOR_ROWS[j])
  {
  }

  lemma RowApart11()
    ensures forall j :: 11 < j < |SEED_DOCTOR_ROWS| ==> Apart(SEED_DOCTOR_ROWS[11], SEED_DOCTOR_ROWS[j])
  {
  }

  lemma RowApart12()
    ensures forall j :: 12 < j < |SEED_DOCTOR_ROWS| ==> Apart(SEED_DOCTOR_ROWS[12], SEED_DOCTOR_ROWS[j])
  {
  }

  lemma RowApart13()
    ensures forall j :: 13 < j < |SEED_DOCTOR_ROWS| ==> Apart(SEED_DOCTOR_ROWS[13], SEED_DOCTOR_ROWS[j])
  {
  }

  lemma RowApart14()
    ensures forall j :: 14 < j < |SEED_DOCTOR_ROWS| ==> Apart(SEED_DOCTOR_ROWS[14], SEED_DOCTOR_ROWS[j])
  {
  }

  lemma RowApart15()
    ensures forall j :: 15 < j < |SEED_DOCTOR_ROWS| ==> Apart(SEED_DOCTOR_ROWS[15], SEED_DOCTOR_ROWS[j])
  {
  }

  lemma RowApart16()
    ensures forall j :: 16 < j < |SEED_DOCTOR_ROWS| ==> Apart(SEED_DOCTOR_ROWS[16], SEED_DOCTOR_ROWS[j])
  {
  }

  lemma RowApart17()
    ensures forall j :: 17 < j < |SEED_DOCTOR_ROWS| ==> Apart(SEED_DOCTOR_ROWS[17], SEED_DOCTOR_ROWS[j])
  {
  }

  lemma RowApart18()
    ensures forall j :: 18 < j < |SEED_DOCTOR_ROWS| ==> Apart(SEED_DOCTOR_ROWS[18], SEED_DOCTOR_ROWS[j])
  {
  }

  lemma RowApart19()
    ensures forall j :: 19 < j < |SEED_DOCTOR_ROWS| ==> Apart(SEED_DOCTOR_ROWS[19], SEED_DOCTOR_ROWS[j])
  {
  }

  lemma RowApart20()
    ensures forall j :: 20 < j < |SEED_DOCTOR_ROWS| ==> Apart(SEED_DOCTOR_ROWS[20], SEED_DOCTOR_ROWS[j])
  {
  }

  lemma RowApart21()
    ensures forall j :: 21 < j < |SEED_DOCTOR_ROWS| ==> Apart(SEED_DOCTOR_ROWS[21], SEED_DOCTOR_ROWS[j])
  {
  }

  lemma RowApart22()
    ensures forall j :: 22 < j < |SEED_DOCTOR_ROWS| ==> Apart(SEED_DOCTOR_ROWS[22], SEED_DOCTOR_ROWS[j])
  {
  }

  lemma RowApart23()
    ensures forall j :: 23 < j < |SEED_DOCTOR_ROWS| ==> Apart(SEED_DOCTOR_ROWS[23], SEED_DOCTOR_ROWS[j])
  {
  }

  /** The working hours the seed doctors use start before they end. */
  lemma SeedHoursOrdered()
    ensures StringLess("09:00", "14:00")
         && StringLess("10:00", "16:00")
         && StringLess("08:00", "15:00")
         && StringLess("10:00", "18:00")
         && StringLess("09:00", "13:00")
         && StringLess("07:00", "15:00")
         && StringLess("11:00", "19:00")
         && StringLess("08:00", "20:00")
         && StringLess("09:00", "17:00")
         && StringLess("10:00", "14:00")
         && StringLess("09:30", "16:30")
         && StringLess("08:00", "12:00")
         && StringLess("13:00", "19:00")
         && StringLess("08:30", "14:30")
         && StringLess("10:00", "15:00")
         && StringLess("08:00", "16:00")
         && StringLess("07:00", "19:00")
         && StringLess("11:00", "17:00")
         && StringLess("09:00", "16:00")
  {
  }

  lemma RowWellFormed0()
    ensures RowWellFormed(SEED_DOCTOR_ROWS[0])
  {
    var r := DOC_1;
    assert SEED_DOCTOR_ROWS[0] == r;
    assert r.days == ["Mon", "Wed", "Fri"] && r.start == "09:00" && r.end == "14:00";
    Weekdays.PickCanonical([0, 2, 4]);
    assert Weekdays.Pick([0, 2, 4]) == ["Mon", "Wed", "Fri"];
    SeedHoursOrdered();
  }

  lemma RowWellFormed1()
    ensures RowWellFormed(SEED_DOCTOR_ROWS[1])
  {
    var r := DOC_2;
    assert SEED_DOCTOR_ROWS[1] == r;
    assert r.days == ["Tue", "Thu"] && r.start == "10:00" && r.end == "16:00";
    Weekdays.PickCanonical([1, 3]);
    assert Weekdays.Pick([1, 3]) == ["Tue", "Thu"];
    SeedHoursOrdered();
  }

  lemma RowWellFormed2()
    ensures RowWellFormed(SEED_DOCTOR_ROWS[2])
  {
    var r := DOC_3;
    assert SEED_DOCTOR_ROWS[2] == r;
    assert r.days == ["Mon", "Tue", "Thu", "Fri"] && r.start == "08:00" && r.end == "15:00";
    Weekdays.PickCanonical([0, 1, 3, 4]);
    assert Weekdays.Pick([0, 1, 3, 4]) == ["Mon", "Tue", "Thu", "Fri"];
    SeedHoursOrdered();
  }

  lemma RowWellFormed3()
    ensures RowWellFormed(SEED_DOCTOR_ROWS[3])
  {
    var r := DOC_4;
    assert SEED_DOCTOR_ROWS[3] == r;
    assert r.days == ["Wed", "Thu", "Fri"] && r.start == "10:00" && r.end == "18:00";
    Weekdays.PickCanonical([2, 3, 4]);
    assert Weekdays.Pick([2, 3, 4]) == ["Wed", "Thu", "Fri"];
    SeedHoursOrdered();
  }

  lemma RowWellFormed4()
    ensures RowWellFormed(SEED_DOCTOR_ROWS[4])
  {
    var r := DOC_5;
    assert SEED_DOCTOR_ROWS[4] == r;
    assert r.days == ["Mon", "Wed", "Sat"] && r.start == "09:00" && r.end == "13:00";
    Weekdays.PickCanonical([0, 2, 5]);
    assert Weekdays.Pick([0, 2, 5]) == ["Mon", "Wed", "Sat"];
    SeedHoursOrdered();
  }

  lemma RowWellFormed5()
    ensures RowWellFormed(SEED_DOCTOR_ROWS[5])
  {
    var r := DOC_6;
    assert SEED_DOCTOR_ROWS[5] == r;
    assert r.days == ["Tue", "Thu", "Fri"] && r.start == "07:00" && r.end == "15:00";
    Weekdays.PickCanonical([1, 3, 4]);
    assert Weekdays.Pick([1, 3, 4]) == ["Tue", "Thu", "Fri"];
    SeedHoursOrdered();
  }

  lemma RowWellFormed6()
    ensures RowWellFormed(SEED_DOCTOR_ROWS[6])
  {
    var r := DOC_7;
    assert SEED_DOCTOR_ROWS[6] == r;
    assert r.days == ["Mon", "Tue", "Wed", "Thu"] && r.start == "11:00" && r.end == "19:00";
    Weekdays.PickCanonical([0, 1, 2, 3]);
    assert Weekdays.Pick([0, 1, 2, 3]) == ["Mon", "Tue", "Wed", "Thu"];
    SeedHoursOrdered();
  }

  lemma RowWellFormed7()
    ensures RowWellFormed(SEED_DOCTOR_ROWS[7])
  {
    var r := DOC_8;
    assert SEED_DOCTOR_ROWS[7] == r;
    assert r.days == ["Mon", "Tue", "Wed", "Thu", "Fri", "Sat"] && r.start == "08:00" && r.end == "20:00";
    Weekdays.PickCanonical([0, 1, 2, 3, 4, 5]);
    assert Weekdays.Pick([0, 1, 2, 3, 4, 5]) == ["Mon", "Tue", "Wed", "Thu", "Fri", "Sat"];
    SeedHoursOrdered();
  }

  lemma RowWellFormed8()
    ensures RowWellFormed(SEED_DOCTOR_ROWS[8])
  {
    var r := DOC_9;
    assert SEED_DOCTOR_ROWS[8] == r;
    assert r.days == ["Mon", "Wed", "Fri"] && r.start == "09:00" && r.end == "17:00";
    Weekdays.PickCanonical([0, 2, 4]);
    assert Weekdays.Pick([0, 2, 4]) == ["Mon", "Wed", "Fri"];
    SeedHoursOrdered();
  }

  lemma RowWellFormed9()
    ensures RowWellFormed(SEED_DOCTOR_ROWS[9])
  {
    var r := DOC_10;
    assert SEED_DOCTOR_ROWS[9] == r;
    assert r.days == ["Tue", "Thu", "Sat"] && r.start == "10:00" && r.end == "14:00";
    Weekdays.PickCanonical([1, 3, 5]);
    assert Weekdays.Pick([1, 3, 5]) == ["Tue", "Thu", "Sat"];
    SeedHoursOrdered();
  }

  lemma RowWellFormed10()
    ensures RowWellFormed(SEED_DOCTOR_ROWS[10])
  {
    var r := DOC_11;
    assert SEED_DOCTOR_ROWS[10] == r;
    assert r.days == ["Mon", "Tue", "Thu"] && r.start == "09:30" && r.end == "16:30";
    Weekdays.PickCanonical([0, 1, 3]);
    assert Weekdays.Pick([0, 1, 3]) == ["Mon", "Tue", "Thu"];
    SeedHoursOrdered();
  }

  lemma RowWellFormed11()
    ensures RowWellFormed(SEED_DOCTOR_ROWS[11])
  {
    var r := DOC_12;
    assert SEED_DOCTOR_ROWS[11] == r;
    assert r.days == ["Wed", "Fri", "Sat"] && r.start == "08:00" && r.end == "12:00";
    Weekdays.PickCanonical([2, 4, 5]);
    assert Weekdays.Pick([2, 4, 5]) == ["Wed", "Fri", "Sat"];
    SeedHoursOrdered();
  }

  lemma RowWellFormed12()
    ensures RowWellFormed(SEED_DOCTOR_ROWS[12])
  {
    var r := DOC_13;
    assert SEED_DOCTOR_ROWS[12] == r;
    assert r.days == ["Mon", "Wed", "Fri"] && r.start == "10:00" && r.end == "16:00";
    Weekdays.PickCanonical([0, 2, 4]);
    assert Weekdays.Pick([0, 2, 4]) == ["Mon", "Wed", "Fri"];
    SeedHoursOrdered();
  }

  lemma RowWellFormed13()
    ensures RowWellFormed(SEED_DOCTOR_ROWS[13])
  {
    var r := DOC_14;
    assert SEED_DOCTOR_ROWS[13] == r;
    assert r.days == ["Tue", "Thu"] && r.start == "09:00" && r.end == "17:00";
    Weekdays.PickCanonical([1, 3]);
    assert Weekdays.Pick([1, 3]) == ["Tue", "Thu"];
    SeedHoursOrdered();
  }

  lemma RowWellFormed14()
    ensures RowWellFormed(SEED_DOCTOR_ROWS[14])
  {
    var r := DOC_15;
    assert SEED_DOCTOR_ROWS[14] == r;
    assert r.days == ["Mon", "Tue", "Wed", "Thu", "Fri"] && r.start == "13:00" && r.end == "19:00";
    Weekdays.PickCanonical([0, 1, 2, 3, 4]);
    assert Weekdays.Pick([0, 1, 2, 3, 4]) == ["Mon", "Tue", "Wed", "Thu", "Fri"];
    SeedHoursOrdered();
  }

  lemma RowWellFormed15()
    ensures RowWellFormed(SEED_DOCTOR_ROWS[15])
  {
    var r := DOC_16;
    assert SEED_DOCTOR_ROWS[15] == r;
    assert r.days == ["Wed", "Fri"] && r.start == "08:30" && r.end == "14:30";
    Weekdays.PickCanonical([2, 4]);
    assert Weekdays.Pick([2, 4]) == ["Wed", "Fri"];
    SeedHoursOrdered();
  }

  lemma RowWellFormed16()
    ensures RowWellFormed(SEED_DOCTOR_ROWS[16])
  {
    var r := DOC_17;
    assert SEED_DOCTOR_ROWS[16] == r;
    assert r.days == ["Mon", "Thu"] && r.start == "10:00" && r.end == "15:00";
    Weekdays.PickCanonical([0, 3]);
    assert Weekdays.Pick([0, 3]) == ["Mon", "Thu"];
    SeedHoursOrdered();
  }

  lemma RowWellFormed17()
    ensures RowWellFormed(SEED_DOCTOR_ROWS[17])
  {
    var r := DOC_18;
    assert SEED_DOCTOR_ROWS[17] == r;
    assert r.days == ["Mon", "Tue", "Wed", "Thu", "Fri"] && r.start == "08:00" && r.end == "16:00";
    Weekdays.PickCanonical([0, 1, 2, 3, 4]);
    assert Weekdays.Pick([0, 1, 2, 3, 4]) == ["Mon", "Tue", "Wed", "Thu", "Fri"];
    SeedHoursOrdered();
  }

  lemma RowWellFormed18()
    ensures RowWellFormed(SEED_DOCTOR_ROWS[18])
  {
    var r := DOC_19;
    assert SEED_DOCTOR_ROWS[18] == r;
    assert r.days == ["Mon", "Tue", "Wed", "Thu", "Fri", "Sat"] && r.start == "07:00" && r.end == "19:00";
    Weekdays.PickCanonical([0, 1, 2, 3, 4, 5]);
    assert Weekdays.Pick([0, 1, 2, 3, 4, 5]) == ["Mon", "Tue", "Wed", "Thu", "Fri", "Sat"];
    SeedHoursOrdered();
  }

  lemma RowWellFormed19()
    ensures RowWellFormed(SEED_DOCTOR_ROWS[19])
  {
    var r := DOC_20;
    assert SEED_DOCTOR_ROWS[19] == r;
    assert r.days == ["Tue", "Thu"] && r.start == "11:00" && r.end == "17:00";
    Weekdays.PickCanonical([1, 3]);
    assert Weekdays.Pick([1, 3]) == ["Tue", "Thu"];
    SeedHoursOrdered();
  }

  lemma RowWellFormed20()
    ensures RowWellFormed(SEED_DOCTOR_ROWS[20])
  {
    var r := DOC_21;
    assert SEED_DOCTOR_ROWS[20] == r;
    assert r.days == ["Mon", "Wed", "Fri"] && r.start == "09:00" && r.end == "17:00";
    Weekdays.PickCanonical([0, 2, 4]);
    assert Weekdays.Pick([0, 2, 4]) == ["Mon", "Wed", "Fri"];
    SeedHoursOrdered();
  }

  lemma RowWellFormed21()
    ensures RowWellFormed(SEED_DOCTOR_ROWS[21])
  {
    var r := DOC_22;
    assert SEED_DOCTOR_ROWS[21] == r;
    assert r.days == ["Tue", "Thu", "Sat"] && r.start == "08:00" && r.end == "12:00";
    Weekdays.PickCanonical([1, 3, 5]);
    assert Weekdays.Pick([1, 3, 5]) == ["Tue", "Thu", "Sat"];
    SeedHoursOrdered();
  }

  lemma RowWellFormed22()
    ensures RowWellFormed(SEED_DOCTOR_ROWS[22])
  {
    var r := DOC_23;
    assert SEED_DOCTOR_ROWS[22] == r;
    assert r.days == ["Mon", "Wed", "Fri"] && r.start == "10:00" && r.end == "14:00";
    Weekdays.PickCanonical([0, 2, 4]);
    assert Weekdays.Pick([0, 2, 4]) == ["Mon", "Wed", "Fri"];
    SeedHoursOrdered();
  }

  lemma RowWellFormed23()
    ensures RowWellFormed(SEED_DOCTOR_ROWS[23])
  {
    var r := DOC_24;
    assert SEED_DOCTOR_ROWS[23] == r;
    assert r.days == ["Tue", "Thu"] && r.start == "09:00" && r.end == "16:00";
    Weekdays.PickCanonical([1, 3]);
    assert Weekdays.Pick([1, 3]) == ["Tue", "Thu"];
    SeedHoursOrdered();
  }

  lemma RowWellFormed24()
    ensures RowWellFormed(SEED_DOCTOR_ROWS[24])
  {
    var r := DOC_25;
    assert SEED_DOCTOR_ROWS[24] == r;
    assert r.days == ["Mon", "Wed", "Fri"] && r.start == "08:00" && r.end == "16:00";
    Weekdays.PickCanonical([0, 2, 4]);
    assert Weekdays.Pick([0, 2, 4]) == ["Mon", "Wed", "Fri"];
    SeedHoursOrdered();
  }

  /** The doctor rows are pairwise apart and each is well formed. */
  lemma DoctorRowsFacts()
    ensures forall i :: 0 <= i < |SEED_DOCTOR_ROWS| ==> RowWellFormed(SEED_DOCTOR_ROWS[i])
    ensures forall i, j :: 0 <= i < j < |SEED_DOCTOR_ROWS| ==> Apart(SEED_DOCTOR_ROWS[i], SEED_DOCTOR_ROWS[j])
  {
    forall i | 0 <= i < |SEED_DOCTOR_ROWS|
      ensures RowWellFormed(SEED_DOCTOR_ROWS[i])
      ensures forall j :: i < j < |SEED_DOCTOR_ROWS| ==> Apart(SEED_DOCTOR_ROWS[i], SEED_DOCTOR_ROWS[j])
    {
      if i == 0 { RowWellFormed0(); RowApart0(); }
      else if i == 1 { RowWellFormed1(); RowApart1(); }
      else if i == 2 { RowWellFormed2(); RowApart2(); }
      else if i == 3 { RowWellFormed3(); RowApart3(); }
      else if i == 4 { RowWellFormed4(); RowApart4(); }
      else if i == 5 { RowWellFormed5(); RowApart5(); }
      else if i == 6 { RowWellFormed6(); RowApart6(); }
      else if i == 7 { RowWellFormed7(); RowApart7(); }
      else if i == 8 { RowWellFormed8(); RowApart8(); }
      else if i == 9 { RowWellFormed9(); RowApart9(); }
      else if i == 10 { RowWellFormed10(); RowApart10(); }
      else if i == 11 { RowWellFormed11(); RowApart11(); }
      else if i == 12 { RowWellFormed12(); RowApart12(); }
      else if i == 13 { RowWellFormed13(); RowApart13(); }
      else if i == 14 { RowWellFormed14(); RowApart14(); }
      else if i == 15 { RowWellFormed15(); RowApart15(); }
      else if i == 16 { RowWellFormed16(); RowApart16(); }
      else if i == 17 { RowWellFormed17(); RowApart17(); }
      else if i == 18 { RowWellFormed18(); RowApart18(); }
      else if i == 19 { RowWellFormed19(); RowApart19(); }
      else if i == 20 { RowWellFormed20(); RowApart20(); }
      else if i == 21 { RowWellFormed21(); RowApart21(); }
      else if i == 22 { RowWellFormed22(); RowApart22(); }
      else if i == 23 { RowWellFormed23(); RowApart23(); }
      else if i == 24 { RowWellFormed24(); }
    }
  }
  /** No doctor row uses the id or the email of `db_users` seed entry 0. */
  lemma UserApartFromDoctors0()
    ensures forall j :: 0 <= j < |SEED_DOCTOR_ROWS| ==>
      SEED_DOCTOR_ROWS[j].id != "user-1" && SEED_DOCTOR_ROWS[j].email != "john@gowthamhospital.com"
  {
  }

  /** No doctor row uses the id or the email of `db_users` seed entry 1. */
  lemma UserApartFromDoctors1()
    ensures forall j :: 0 <= j < |SEED_DOCTOR_ROWS| ==>
      SEED_DOCTOR_ROWS[j].id != "user-2" && SEED_DOCTOR_ROWS[j].email != "jane@gowthamhospital.com"
  {
  }

  /** No doctor row uses the id or the email of `db_users` seed entry 2. */
  lemma UserApartFromDoctors2()
    ensures forall j :: 0 <= j < |SEED_DOCTOR_ROWS| ==>
      SEED_DOCTOR_ROWS[j].id != "admin-1" && SEED_DOCTOR_ROWS[j].email != "admin@gowthamhospital.com"
  {
  }

  /** The seed holds two patients and the admin, in that order, and 25 doctor records. */
  lemma SeedShape(t: string)
    ensures |InitialUsers(t)| == 3 && |SeedDoctors(t)| == 25
    ensures InitialUsers(t)[0].role == UserRole && InitialUsers(t)[1].role == UserRole
    ensures InitialUsers(t)[2].role == AdminRole
    ensures forall k :: 0 <= k < 3 ==> IsUserRecord(InitialUsers(t)[k])
    ensures forall d :: d in SeedDoctors(t) ==> d.role == DoctorRole && IsDoctorRecord(d)
  {
  }

  /** No two seed accounts, across both tables, share an id or an email. */
  lemma SeedAccountsDistinct(t: string)
    ensures forall i, j :: 0 <= i < j < |AllSeedAccounts(t)| ==>
      AllSeedAccounts(t)[i].id != AllSeedAccounts(t)[j].id && AllSeedAccounts(t)[i].email != AllSeedAccounts(t)[j].email
  {
    var a := AllSeedAccounts(t);
    var users := InitialUsers(t);
    DoctorRowsFacts();
    UserApartFromDoctors0();
    UserApartFromDoctors1();
    UserApartFromDoctors2();
    forall i, j | 0 <= i < j < |a|
      ensures a[i].id != a[j].id && a[i].email != a[j].email
    {
      if j >= 3 {
        assert a[j] == DoctorAccount(SEED_DOCTOR_ROWS[j - 3], t);
        if i >= 3 {
          assert a[i] == DoctorAccount(SEED_DOCTOR_ROWS[i - 3], t);
        }
      }
    }
  }

  /** Every seed doctor lists its days in strict Mon..Sun order and starts work before it ends. */
  lemma SeedDoctorsWellFormed(t: string)
    ensures forall d :: d in SeedDoctors(t) ==>
      Weekdays.Canonical(d.availableDays.value) && StringLess(d.availableTimeStart.value, d.availableTimeEnd.value)
  {
    DoctorRowsFacts();
  }
}
