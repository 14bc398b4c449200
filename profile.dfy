/**
 * The account settings page: a deep copy of the session user that the inputs edit, the weekday
 * toggle for doctors, and a submit that writes the copy to the doctor or the user table.
 */
module Profile {
  import opened Types
  import Weekdays
  import opened MockDatabase
  import opened AuthContext
  import opened FieldEdits

  /** The banner above the form. */
  datatype Message = Message(isSuccess: bool, text: string)

  const SAVED_TEXT: string := "Profile updated successfully!"
  const FAILED_TEXT: string := "Failed to update profile."

  /** The table a submit writes to. */
  datatype Target = DoctorsTable | UsersTable

  /** Doctors save to `db_doctors`; every other role to `db_users`. */
  function SubmitTarget(user: Option<Account>): (t: Target)
    ensures t == DoctorsTable <==> user.Some? && user.value.role == DoctorRole
  {
    if user.Some? && user.value.role == DoctorRole then DoctorsTable else UsersTable
  }

  /** The banner a submit leaves: success unless the store call threw. */
  function SubmitMessage(threw: bool): (m: Message)
    ensures m.isSuccess <==> !threw
    ensures m.text == if threw then FAILED_TEXT else SAVED_TEXT
  {
    if threw then Message(false, FAILED_TEXT) else Message(true, SAVED_TEXT)
  }

  /** `toggleDay`: a missing day list counts as empty. */
  function ToggledProfile(form: Account, day: string): Account {
    form.(availableDays := Some(Weekdays.Toggled(form.availableDays.GetOr([]), day)))
  }

  /** A record without days gets exactly the toggled day. */
  lemma ToggleOnMissingDays(form: Account, day: string)
    requires form.availableDays.None?
    ensures ToggledProfile(form, day).availableDays == Some([day])
  {
    assert Weekdays.Flipped([], day) == [day];
  }

  /** The copy includes the current password, so a submit that leaves that input alone keeps it. */
  lemma UntouchedPasswordKept(user: Account, edits: seq<Edit>)
    requires !EditsText(edits, PasswordField)
    ensures ApplyEdits(user, edits).password == user.password
  {
    UneditedFieldsKept(user, edits, PasswordField);
  }

  /** Clearing the password input stores the empty password: nothing here keeps the old one. */
  lemma ClearedPasswordStored(form: Account)
    ensures ApplyEdit(form, TextEdit(PasswordField, "")).password == Some("")
  {
  }

  /** The page's state. */
  class ProfilePage {
    /** `formData`; `None` is the initial `{}`. */
    var formData: Option<Account>
    var message: Option<Message>

    constructor ()
      ensures formData == None && message == None
    {
      formData := None;
      message := None;
    }

    /** The effect on `user`: a signed-in user's record is copied into the form. */
    method Mount(user: Option<Account>)
      modifies this
      ensures formData == if user.Some? then user else old(formData)
      ensures message == old(message)
    {
      if user.Some? {
        formData := user;
      }
    }

    /**
     * `handleChange`: one input writes its own key. The form is shown only once a user is loaded;
     * the email input is read-only, so the email stays.
     */
    method HandleChange(e: Edit)
      requires formData.Some?
      modifies this
      ensures formData == Some(ApplyEdit(old(formData.value), e)) && message == old(message)
      ensures formData.value.email == old(formData.value.email)
    {
      formData := Some(ApplyEdit(formData.value, e));
    }

    method ToggleDay(day: string)
      requires formData.Some?
      modifies this
      ensures formData == Some(ToggledProfile(old(formData.value), day)) && message == old(message)
    {
      var days := Weekdays.ToggleDay(formData.value.availableDays.GetOr([]), day);
      formData := Some(formData.value.(availableDays := Some(days)));
    }

    /** `handleSubmit` against the in-memory store, which never throws. */
    method HandleSubmit(db: Store, session: AuthProvider)
      requires formData.Some?
      modifies this, db, session
      ensures var saved := old(formData.value);
        && (SubmitTarget(old(session.auth.user)) == DoctorsTable ==>
              db.doctors == Some(ReplaceById(old(db.DoctorsView()), saved)) && db.users == old(db.users))
        && (SubmitTarget(old(session.auth.user)) == UsersTable ==>
              db.users == Some(ReplaceById(old(db.UsersView()), saved)) && db.doctors == old(db.doctors))
        && session.auth == UpdateProfileStep(old(session.auth), saved).state
        && session.sessionUser == Some(saved)
      ensures db.appointments == old(db.appointments)
      ensures message == Some(SubmitMessage(false)) && formData == old(formData)
    {
      message := None;
      var saved := formData.value;
      if SubmitTarget(session.auth.user) == DoctorsTable {
        db.UpdateDoctor(saved);
      } else {
        db.UpdateUser(saved);
      }
      session.UpdateProfile(saved);
      message := Some(SubmitMessage(false));
    }
  }
}
