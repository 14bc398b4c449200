/**
 * The admin's doctor management page: the doctor list with its search box, and one modal form
 * that either creates a doctor or edits an existing one.
 */
module ManageDoctors {
  import opened Types
  import Weekdays
  import opened MockDatabase

  /** The form's fields. */
  datatype FormData = FormData(
    name: string,
    email: string,
    specialization: string,
    phone: string,
    password: string,
    availableTimeStart: string,
    availableTimeEnd: string,
    availableDays: seq<string>)

  /** `initialFormState`. */
  const INITIAL_FORM: FormData :=
    FormData("", "", "", "", "password123", "09:00", "17:00", ["Mon", "Tue", "Wed", "Thu", "Fri"])

  /** The defaults of a new doctor: working Monday to Friday, nine to five, with a set password. */
  lemma InitialFormDefaults()
    ensures INITIAL_FORM.password == "password123"
    ensures INITIAL_FORM.availableTimeStart == "09:00" && INITIAL_FORM.availableTimeEnd == "17:00"
    ensures Weekdays.Canonical(INITIAL_FORM.availableDays) && |INITIAL_FORM.availableDays| == 5
    ensures StringLess(INITIAL_FORM.availableTimeStart, INITIAL_FORM.availableTimeEnd)
  {
    Weekdays.PickCanonical([0, 1, 2, 3, 4]);
    assert Weekdays.Pick([0, 1, 2, 3, 4]) == INITIAL_FORM.availableDays;
  }

  /** `handleEdit`'s form contents: the doctor's fields, with `phone || ''` and `password || 'password123'`. */
  function FormFromDoctor(doc: Account): (f: FormData)
    requires IsDoctorRecord(doc)
    ensures f.name == doc.name && f.email == doc.email && f.specialization == doc.specialization.value
    ensures f.availableDays == doc.availableDays.value
    ensures f.availableTimeStart == doc.availableTimeStart.value && f.availableTimeEnd == doc.availableTimeEnd.value
    ensures f.phone == (if doc.phone.Some? then doc.phone.value else "")
    ensures f.password == (if doc.password.Some? && doc.password.value != "" then doc.password.value else "password123")
  {
    FormData(doc.name, doc.email, doc.specialization.value, OrElse(doc.phone, ""),
             OrElse(doc.password, "password123"), doc.availableTimeStart.value,
             doc.availableTimeEnd.value, doc.availableDays.value)
  }

  /** `{ ...existingDoc, ...formData }`: every form field overrides, every other field is the record's. */
  function MergeForm(existing: Account, f: FormData): (r: Account)
    ensures r.id == existing.id && r.role == existing.role && r.experience == existing.experience
    ensures r.createdAt == existing.createdAt
    ensures r.name == f.name && r.email == f.email && r.specialization == Some(f.specialization)
    ensures r.phone == Some(f.phone) && r.password == Some(f.password) && r.availableDays == Some(f.availableDays)
    ensures r.availableTimeStart == Some(f.availableTimeStart) && r.availableTimeEnd == Some(f.availableTimeEnd)
  {
    existing.(name := f.name, email := f.email, specialization := Some(f.specialization),
              phone := Some(f.phone), password := Some(f.password),
              availableTimeStart := Some(f.availableTimeStart), availableTimeEnd := Some(f.availableTimeEnd),
              availableDays := Some(f.availableDays))
  }

  /** The record a create builds: the form, with id `doc-<stamp>`, role 'doctor', experience 5, created `now`. */
  function NewDoctor(f: FormData, stamp: string, now: string): (d: Account)
    ensures IsDoctorRecord(d) && d.id == "doc-" + stamp && d.role == DoctorRole
    ensures d.experience == Some(5) && d.createdAt == now
    ensures MergeForm(d, f) == d
  {
    Account("doc-" + stamp, f.name, f.email, Some(f.password), DoctorRole, Some(f.phone), now,
            Some(f.specialization), Some(5), Some(f.availableDays),
            Some(f.availableTimeStart), Some(f.availableTimeEnd))
  }

  /** Opening a doctor and saving the form untouched writes back the same record, up to the filled-in defaults. */
  lemma EditRoundTrip(doc: Account)
    requires IsDoctorRecord(doc)
    requires doc.phone.Some? && doc.password.Some? && doc.password.value != ""
    ensures MergeForm(doc, FormFromDoctor(doc)) == doc
  {
  }

  /** `doctors.find(d => d.id === id)`. */
  function FindById(s: seq<Account>, id: string): (r: Option<Account>)
    ensures r.None? <==> forall a :: a in s ==> a.id != id
    ensures r.Some? ==> r.value in s && r.value.id == id
    ensures r.Some? ==> exists k :: 0 <= k < |s| && s[k] == r.value && forall j :: 0 <= j < k ==> s[j].id != id
  {
    if s == [] then None
    else if s[0].id == id then Some(s[0])
    else FindById(s[1..], id)
  }

  /** The search test on one doctor, both sides lower-cased. */
  predicate Matches(doc: Account, query: string)
    requires doc.specialization.Some?
  {
    Contains(Lower(doc.name), Lower(query)) || Contains(Lower(doc.specialization.value), Lower(query))
  }

  /** `filteredDoctors`. */
  function Filtered(doctors: seq<Account>, query: string): (r: seq<Account>)
    requires forall d :: d in doctors ==> d.specialization.Some?
    ensures forall d :: d in r <==> d in doctors && Matches(d, query)
    ensures |r| <= |doctors|
  {
    if doctors == [] then []
    else if Matches(doctors[0], query) then [doctors[0]] + Filtered(doctors[1..], query)
    else Filtered(doctors[1..], query)
  }

  /** The search keeps the list order: it distributes over concatenation. */
  lemma {:induction false} FilteredConcat(s: seq<Account>, t: seq<Account>, query: string)
    requires forall d :: d in s + t ==> d.specialization.Some?
    ensures Filtered(s + t, query) == Filtered(s, query) + Filtered(t, query)
  {
    if s == [] {
      assert s + t == t;
    } else {
      assert (s + t)[1..] == s[1..] + t;
      FilteredConcat(s[1..], t, query);
    }
  }

  /** Every string contains the empty string. */
  lemma ContainsEmpty(a: string)
    ensures Contains(a, "")
  {
  }

  /** An empty search box shows every doctor. */
  lemma {:induction false} EmptyQueryKeepsAll(doctors: seq<Account>)
    requires forall d :: d in doctors ==> d.specialization.Some?
    ensures Filtered(doctors, "") == doctors
  {
    if doctors != [] {
      ContainsEmpty(Lower(doctors[0].name));
      EmptyQueryKeepsAll(doctors[1..]);
    }
  }

  /** The search ignores the case of ASCII letters in the query. */
  lemma {:induction false} QueryCaseIgnored(doctors: seq<Account>, query: string, other: string)
    requires forall d :: d in doctors ==> d.specialization.Some?
    requires Lower(query) == Lower(other)
    ensures Filtered(doctors, query) == Filtered(doctors, other)
  {
    if doctors != [] {
      QueryCaseIgnored(doctors[1..], query, other);
    }
  }

  /** What a submit leaves in `db_doctors`, given the table before and the page's loaded list. */
  function SubmitTable(table: seq<Account>, loaded: seq<Account>, editingId: Option<string>, f: FormData,
                       stamp: string, now: string): (r: seq<Account>)
  {
    if editingId.Some? && editingId.value != "" then
      match FindById(loaded, editingId.value)
      case Some(existing) => ReplaceById(table, MergeForm(existing, f))
      case None => table
    else table + [NewDoctor(f, stamp, now)]
  }

  /** An edit of an id the page has not loaded writes nothing. */
  lemma EditOfUnknownIdWritesNothing(table: seq<Account>, loaded: seq<Account>, id: string, f: FormData,
                                     stamp: string, now: string)
    requires id != "" && forall a :: a in loaded ==> a.id != id
    ensures SubmitTable(table, loaded, Some(id), f, stamp, now) == table
  {
  }

  /** An edit keeps the table's length and changes only records with the edited id. */
  lemma EditChangesOnlyThatId(table: seq<Account>, loaded: seq<Account>, id: string, f: FormData,
                              stamp: string, now: string)
    requires id != ""
    ensures var r := SubmitTable(table, loaded, Some(id), f, stamp, now);
      |r| == |table| && forall k :: 0 <= k < |table| && table[k].id != id ==> r[k] == table[k]
  {
  }

  /** The page's state. */
  class ManageDoctorsPage {
    var doctors: seq<Account>
    var searchQuery: string
    var isModalOpen: bool
    var editingId: Option<string>
    var formData: FormData

    constructor ()
      ensures doctors == [] && searchQuery == "" && !isModalOpen && editingId == None && formData == INITIAL_FORM
    {
      doctors := [];
      searchQuery := "";
      isModalOpen := false;
      editingId := None;
      formData := INITIAL_FORM;
    }

    /** `fetchDoctors`. */
    method FetchDoctors(db: Store)
      modifies this, db
      ensures doctors == old(db.DoctorsView()) && db.doctors == Some(doctors)
      ensures db.users == old(db.users) && db.appointments == old(db.appointments)
      ensures searchQuery == old(searchQuery) && isModalOpen == old(isModalOpen)
      ensures editingId == old(editingId) && formData == old(formData)
    {
      doctors := db.GetDoctors();
    }

    /** `handleDelete`; `confirmed` is the answer to the confirmation dialog. */
    method HandleDelete(db: Store, id: string, confirmed: bool)
      modifies this, db
      ensures confirmed ==> db.doctors == Some(RemoveById(old(db.DoctorsView()), id)) && doctors == db.doctors.value
      ensures !confirmed ==> db.doctors == old(db.doctors) && doctors == old(doctors)
      ensures db.users == old(db.users) && db.appointments == old(db.appointments)
      ensures editingId == old(editingId) && formData == old(formData)
    {
      if confirmed {
        db.DeleteDoctor(id);
        FetchDoctors(db);
      }
    }

    /** `handleEdit`: the form is filled from a listed doctor and the modal opens. */
    method HandleEdit(doc: Account)
      requires IsDoctorRecord(doc)
      modifies this
      ensures editingId == Some(doc.id) && formData == FormFromDoctor(doc) && isModalOpen
      ensures doctors == old(doctors) && searchQuery == old(searchQuery)
    {
      editingId := Some(doc.id);
      formData := FormFromDoctor(doc);
      isModalOpen := true;
    }

    /** `handleAddNew`. */
    method HandleAddNew()
      modifies this
      ensures editingId == None && formData == INITIAL_FORM && isModalOpen
      ensures doctors == old(doctors) && searchQuery == old(searchQuery)
    {
      editingId := None;
      formData := INITIAL_FORM;
      isModalOpen := true;
    }

    /** `toggleDay` on the form's days. */
    method ToggleDay(day: string)
      modifies this
      ensures formData == old(formData).(availableDays := Weekdays.Toggled(old(formData.availableDays), day))
      ensures doctors == old(doctors) && editingId == old(editingId) && isModalOpen == old(isModalOpen)
    {
      var days := Weekdays.ToggleDay(formData.availableDays, day);
      formData := formData.(availableDays := days);
    }

    /** `handleSubmit`: one create or edit, a fresh read, and the form back to its initial state. */
    method HandleSubmit(db: Store, stamp: string, now: string)
      modifies this, db
      ensures db.doctors == Some(SubmitTable(old(db.DoctorsView()), old(doctors), old(editingId), old(formData), stamp, now))
      ensures doctors == db.doctors.value
      ensures db.users == old(db.users) && db.appointments == old(db.appointments)
      ensures !isModalOpen && formData == INITIAL_FORM && editingId == None
    {
      if editingId.Some? && editingId.value != "" {
        var existing := FindById(doctors, editingId.value);
        if existing.Some? {
          db.UpdateDoctor(MergeForm(existing.value, formData));
        }
      } else {
        db.AddDoctor(NewDoctor(formData, stamp, now));
      }
      FetchDoctors(db);
      isModalOpen := false;
      formData := INITIAL_FORM;
      editingId := None;
    }
  }
}
